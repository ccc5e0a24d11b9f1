/** The part of Jackson's JSON tree model the table accessor relies on:
    values, object nodes as records, `hasNonNull`, `asText`, and string blankness. */
module JsonNodes {
  import opened Wrappers

  /** A JSON value. Numbers keep the textual form Jackson renders for them. */
  datatype Value =
    | Null
    | Bool(b: bool)
    | Number(lexeme: string)
    | Text(s: string)
    | Array(items: seq<Value>)
    | Object(fields: map<string, Value>)

  /** An object node: field name to JSON value. */
  type Record = map<string, Value>

  /** Jackson's `asText`: the text of a textual node, the rendering of a scalar,
      "null" for a null node and the empty string for a container node. */
  function AsText(v: Value): string
  {
    match v
    case Null => "null"
    case Bool(b) => if b then "true" else "false"
    case Number(l) => l
    case Text(s) => s
    case Array(_) => ""
    case Object(_) => ""
  }

  /** Jackson's `hasNonNull`: the field is present and its value is not JSON null. */
  predicate HasNonNull(on: Record, name: string)
  {
    name in on && !on[name].Null?
  }

  /** The characters Java's `Character.isWhitespace` accepts in the ASCII range. */
  predicate IsWhitespace(c: char)
  {
    c == ' ' || c == '\t' || c == '\n' || c == '\U{000B}' || c == '\U{000C}' || c == '\r'
    || '\U{001C}' <= c <= '\U{001F}'
  }

  /** A string is blank when it is null, empty, or made of whitespace only. */
  predicate IsBlank(s: Option<string>)
  {
    s.None? || forall i :: 0 <= i < |s.value| ==> IsWhitespace(s.value[i])
  }

  /** A field read as text: present only when the field is present and non-null. */
  function GetString(on: Record, name: string): (r: Option<string>)
    ensures r.Some? <==> HasNonNull(on, name)
    ensures r.Some? ==> r.value == AsText(on[name])
    ensures name in on && on[name].Text? ==> r == Some(on[name].s)
  {
    if HasNonNull(on, name) then Some(AsText(on[name])) else None
  }
}
