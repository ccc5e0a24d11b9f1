/** The record operations of the table accessor: save, create, update, get, the
    query family (findMany, findOne, getOne, getMany) and delete. Each operation is a
    pure function of the accessor's configuration, the server's answers and its
    argument; it returns what the Java method returns or throws, together with the
    requests it issued, in order. */
module ObjectNodeTemplate {
  import opened Wrappers
  import opened JsonNodes
  import opened Http

  /** The record field holding a record's unique identifier. */
  const SYS_ID := "sys_id"
  /** The query parameter that restricts which fields the server returns. */
  const SYSPARM_FIELDS := "sysparm_fields"
  /** The envelope key under which every response nests its payload. */
  const CONTAINER_NODE_NAME := "result"
  const NOT_FOUND := 404

  /** The accessor's configuration: the field names to request. */
  datatype Template = Template(fieldNames: seq<string>)

  datatype Error =
    | NullArgument                                     // checkNotNull failed
    | InvalidArgument                                  // checkNotBlank failed
    | IncorrectResultSize(expected: nat, actual: nat)  // IncorrectResultSizeException(expected, actual)
    | NoRecords                                        // IncorrectResultSizeException("Expected more than zero records")
    | MalformedResponse                                // response without a usable envelope
    | TransportFailure(cause: TransportError)          // transport exception, propagated as thrown

  /** What one operation returns (or throws), and the requests it issued. */
  datatype Call<T> = Call(result: Result<T, Error>, issued: seq<Request>)

  /** A query: the call, and the caller's parameters as the query leaves them
      (the source appends the field names to the caller's object in place). */
  datatype Query<T> = Query(call: Call<T>, paramsAfter: Option<Params>)

  /** A record's identifier, read as text. */
  function SysId(on: Record): Option<string>
  {
    GetString(on, SYS_ID)
  }

  /** The field selection appended to a request: every configured field name under
      `sysparm_fields`, and nothing when no field names are configured. */
  function FieldSelection(t: Template): (p: Params)
    ensures Values(p, SYSPARM_FIELDS) == t.fieldNames
    ensures p.Keys == if t.fieldNames == [] then {} else {SYSPARM_FIELDS}
  {
    PutAll(map[], SYSPARM_FIELDS, t.fieldNames)
  }

  /** The payload under the envelope key, when the body is an object that has one. */
  function Container(body: Value): Option<Value>
  {
    if body.Object? && CONTAINER_NODE_NAME in body.fields then Some(body.fields[CONTAINER_NODE_NAME])
    else None
  }

  /** A response body wrapping `payload` under the envelope key. */
  function Envelope(payload: Value): Value
  {
    Object(map[CONTAINER_NODE_NAME := payload])
  }

  /** The single record a create or get response carries. */
  function UnwrapRecord(body: Value): (r: Result<Record, Error>)
    ensures r.Success? <==> Container(body).Some? && Container(body).value.Object?
    ensures r.Success? ==> r.value == Container(body).value.fields
    ensures r.Failure? ==> r.error == MalformedResponse
  {
    match Container(body)
    case Some(Object(rec)) => Success(rec)
    case _ => Failure(MalformedResponse)
  }

  /** The elements of a query's result array as records, in the server's order;
      absent when some element is not an object. */
  function ToRecords(items: seq<Value>): (r: Option<seq<Record>>)
    ensures r.Some? <==> forall i :: 0 <= i < |items| ==> items[i].Object?
    ensures r.Some? ==> |r.value| == |items|
    ensures r.Some? ==> forall i :: 0 <= i < |items| ==> r.value[i] == items[i].fields
  {
    if items == [] then Some([])
    else if !items[0].Object? then None
    else
      match ToRecords(items[1..])
      case None => None
      case Some(rest) => Some([items[0].fields] + rest)
  }

  /** The records a query response carries. The source iterates the envelope's payload:
      an array gives its elements, JSON null or a scalar gives no elements, and a missing
      key is a null dereference. An object payload, whose field values the source would
      iterate in field order, has no order here and is reported as malformed. */
  function UnwrapRecords(body: Value): (r: Result<seq<Record>, Error>)
    ensures Container(body).None? ==> r == Failure(MalformedResponse)
    ensures Container(body).Some? && Container(body).value.Array? ==>
      var items := Container(body).value.items;
      && (r.Success? <==> forall i :: 0 <= i < |items| ==> items[i].Object?)
      && (r.Success? ==> |r.value| == |items|)
      && (r.Success? ==> forall i :: 0 <= i < |items| ==> r.value[i] == items[i].fields)
      && (r.Failure? ==> r.error == MalformedResponse)
    ensures Container(body).Some? && !Container(body).value.Array? && !Container(body).value.Object? ==>
      r == Success([])
    ensures Container(body).Some? && Container(body).value.Object? ==> r == Failure(MalformedResponse)
  {
    match Container(body)
    case None => Failure(MalformedResponse)
    case Some(Array(items)) =>
      (match ToRecords(items)
       case Some(rs) => Success(rs)
       case None => Failure(MalformedResponse))
    case Some(Object(_)) => Failure(MalformedResponse)
    case Some(_) => Success([])
  }

  /** `save`: creates a record that has no identifier and updates one that has. */
  function Save(t: Template, server: Server, on: Option<Record>): (r: Call<Record>)
    ensures on.None? ==> r == Call(Failure(NullArgument), [])
    ensures on.Some? && IsBlank(SysId(on.value)) ==> r == Create(t, server, on)
    ensures on.Some? && !IsBlank(SysId(on.value)) ==> r == Update(t, server, on)
  {
    if on.None? then Call(Failure(NullArgument), [])
    else if IsBlank(SysId(on.value)) then Create(t, server, on)
    else Update(t, server, on)
  }

  /** `create`: one POST of the record to the collection with the field selection;
      the result is the record under the response's envelope key. */
  function Create(t: Template, server: Server, on: Option<Record>): (r: Call<Record>)
    ensures on.None? ==> r == Call(Failure(NullArgument), [])
    ensures on.Some? ==>
      && |r.issued| == 1
      && r.issued[0].verb == HttpPost
      && r.issued[0].target == Collection
      && r.issued[0].body == on
      && r.issued[0].params == FieldSelection(t)
    ensures on.Some? ==>
      match server(r.issued[0])
      case Failed(e) => r.result == Failure(TransportFailure(e))
      case Ok(body) => r.result == UnwrapRecord(body)
  {
    if on.None? then Call(Failure(NullArgument), [])
    else
      var req := Request(HttpPost, Collection, FieldSelection(t), on);
      match server(req)
      case Failed(e) => Call(Failure(TransportFailure(e)), [req])
      case Ok(body) => Call(UnwrapRecord(body), [req])
  }

  /** `update`: refuses a record without an identifier before any request; otherwise
      one PUT of the record to its own URI asking only for `sys_id` back, followed by
      `get` of the same identifier, whose result it returns. */
  function Update(t: Template, server: Server, on: Option<Record>): (r: Call<Record>)
    ensures on.None? ==> r == Call(Failure(NullArgument), [])
    ensures on.Some? && IsBlank(SysId(on.value)) ==> r == Call(Failure(InvalidArgument), [])
    ensures on.Some? && !IsBlank(SysId(on.value)) ==>
      var id := SysId(on.value).value;
      && 1 <= |r.issued|
      && r.issued[0] == Request(HttpPut, Single(id), map[SYSPARM_FIELDS := [SYS_ID]], on)
      && (server(r.issued[0]).Failed? ==>
            r == Call(Failure(TransportFailure(server(r.issued[0]).error)), r.issued[..1]))
      && (server(r.issued[0]).Ok? ==>
            var g := Get(t, server, Some(id));
            r.result == g.result && r.issued == r.issued[..1] + g.issued)
  {
    if on.None? then Call(Failure(NullArgument), [])
    else
      var sysId := SysId(on.value);
      if IsBlank(sysId) then Call(Failure(InvalidArgument), [])
      else
        var params := Put(map[], SYSPARM_FIELDS, SYS_ID);
        var req := Request(HttpPut, Single(sysId.value), params, on);
        match server(req)
        case Failed(e) => Call(Failure(TransportFailure(e)), [req])
        case Ok(_) =>
          var g := Get(t, server, sysId);
          Call(g.result, [req] + g.issued)
  }

  /** `get`: refuses a blank identifier before any request; otherwise one GET of the
      record's URI, with the field selection only when field names are configured.
      Transport errors, 404 included, are passed on as thrown. */
  function Get(t: Template, server: Server, sysId: Option<string>): (r: Call<Record>)
    ensures IsBlank(sysId) ==> r == Call(Failure(InvalidArgument), [])
    ensures !IsBlank(sysId) ==>
      && |r.issued| == 1
      && r.issued[0].verb == HttpGet
      && r.issued[0].target == Single(sysId.value)
      && r.issued[0].body == None
      && r.issued[0].params == (if t.fieldNames == [] then map[] else map[SYSPARM_FIELDS := t.fieldNames])
    ensures !IsBlank(sysId) ==>
      match server(r.issued[0])
      case Failed(e) => r.result == Failure(TransportFailure(e))
      case Ok(body) => r.result == UnwrapRecord(body)
  {
    if IsBlank(sysId) then Call(Failure(InvalidArgument), [])
    else
      var params := if t.fieldNames != [] then PutAll(map[], SYSPARM_FIELDS, t.fieldNames) else map[];
      var req := Request(HttpGet, Single(sysId.value), params, None);
      match server(req)
      case Failed(e) => Call(Failure(TransportFailure(e)), [req])
      case Ok(body) => Call(UnwrapRecord(body), [req])
  }

  /** The caller's parameters after `findMany` has appended the field names to them. */
  function WithFields(t: Template, params: Params): (p: Params)
    ensures Values(p, SYSPARM_FIELDS) == Values(params, SYSPARM_FIELDS) + t.fieldNames
    ensures forall k :: k != SYSPARM_FIELDS ==> Values(p, k) == Values(params, k)
    ensures p.Keys == if t.fieldNames == [] then params.Keys else params.Keys + {SYSPARM_FIELDS}
    ensures WellFormed(params) ==> WellFormed(p)
  {
    PutAll(params, SYSPARM_FIELDS, t.fieldNames)
  }

  /** `findMany`: appends the field names to the caller's parameters, then issues one
      GET of the collection with them. A 404 client error means no matches; every other
      transport error is passed on as thrown; a success yields the envelope's array
      elements in order, and a null or scalar payload yields no records. */
  function FindMany(t: Template, server: Server, params: Option<Params>): (r: Query<seq<Record>>)
    ensures params.None? ==> r == Query(Call(Failure(NullArgument), []), None)
    ensures params.Some? ==>
      && r.paramsAfter == Some(WithFields(t, params.value))
      && r.call.issued == [Request(HttpGet, Collection, r.paramsAfter.value, None)]
    ensures params.Some? ==>
      match server(r.call.issued[0])
      case Failed(e) =>
        r.call.result == if e == ClientError(NOT_FOUND) then Success([]) else Failure(TransportFailure(e))
      case Ok(body) =>
        && (r.call.result.Failure? ==> r.call.result.error == MalformedResponse)
        && (Container(body).None? ==> r.call.result == Failure(MalformedResponse))
        && (Container(body).Some? && Container(body).value.Array? ==>
              var items := Container(body).value.items;
              && (r.call.result.Success? <==> forall i :: 0 <= i < |items| ==> items[i].Object?)
              && (r.call.result.Success? ==>
                    && |r.call.result.value| == |items|
                    && forall i :: 0 <= i < |items| ==> r.call.result.value[i] == items[i].fields))
        && (Container(body).Some? && !Container(body).value.Array? && !Container(body).value.Object? ==>
              r.call.result == Success([]))
  {
    if params.None? then Query(Call(Failure(NullArgument), []), None)
    else
      var after := WithFields(t, params.value);
      var req := Request(HttpGet, Collection, after, None);
      match server(req)
      case Failed(e) =>
        if e.ClientError? && e.status == NOT_FOUND then Query(Call(Success([]), [req]), Some(after))
        else Query(Call(Failure(TransportFailure(e)), [req]), Some(after))
      case Ok(body) => Query(Call(UnwrapRecords(body), [req]), Some(after))
  }

  /** `findOne`: no match is an absent record, one match is that record, and n >= 2
      matches are an IncorrectResultSize(1, n) error. */
  function FindOne(t: Template, server: Server, params: Option<Params>): (r: Query<Option<Record>>)
    ensures r.call.issued == FindMany(t, server, params).call.issued
    ensures r.paramsAfter == FindMany(t, server, params).paramsAfter
    ensures
      match FindMany(t, server, params).call.result
      case Failure(e) => r.call.result == Failure(e)
      case Success(l) =>
        && (|l| == 0 ==> r.call.result == Success(None))
        && (|l| == 1 ==> r.call.result == Success(Some(l[0])))
        && (|l| >= 2 ==> r.call.result == Failure(IncorrectResultSize(1, |l|)))
  {
    var m := FindMany(t, server, params);
    var issued := m.call.issued;
    match m.call.result
    case Failure(e) => Query(Call(Failure(e), issued), m.paramsAfter)
    case Success(l) =>
      if |l| == 0 then Query(Call(Success(None), issued), m.paramsAfter)
      else if |l| == 1 then Query(Call(Success(Some(l[0])), issued), m.paramsAfter)
      else Query(Call(Failure(IncorrectResultSize(1, |l|)), issued), m.paramsAfter)
  }

  /** `getOne`: `findOne`, with an absent record turned into IncorrectResultSize(1, 0). */
  function GetOne(t: Template, server: Server, params: Option<Params>): (r: Query<Record>)
    ensures r.call.issued == FindOne(t, server, params).call.issued
    ensures r.paramsAfter == FindOne(t, server, params).paramsAfter
    ensures r.call.result == Failure(IncorrectResultSize(1, 0)) <==>
      FindOne(t, server, params).call.result == Success(None)
    ensures
      match FindOne(t, server, params).call.result
      case Failure(e) => r.call.result == Failure(e)
      case Success(Some(x)) => r.call.result == Success(x)
      case Success(None) => true
  {
    var o := FindOne(t, server, params);
    match o.call.result
    case Failure(e) => Query(Call(Failure(e), o.call.issued), o.paramsAfter)
    case Success(None) => Query(Call(Failure(IncorrectResultSize(1, 0)), o.call.issued), o.paramsAfter)
    case Success(Some(x)) => Query(Call(Success(x), o.call.issued), o.paramsAfter)
  }

  /** `getMany`: `findMany`, with an empty list turned into an error. */
  function GetMany(t: Template, server: Server, params: Option<Params>): (r: Query<seq<Record>>)
    ensures r.call.issued == FindMany(t, server, params).call.issued
    ensures r.paramsAfter == FindMany(t, server, params).paramsAfter
    ensures r.call.result == Failure(NoRecords) <==> FindMany(t, server, params).call.result == Success([])
    ensures FindMany(t, server, params).call.result != Success([]) ==>
      r.call.result == FindMany(t, server, params).call.result
    ensures r.call.result.Success? ==> r.call.result.value != []
  {
    var m := FindMany(t, server, params);
    match m.call.result
    case Failure(e) => Query(Call(Failure(e), m.call.issued), m.paramsAfter)
    case Success(l) =>
      if |l| == 0 then Query(Call(Failure(NoRecords), m.call.issued), m.paramsAfter)
      else Query(Call(Success(l), m.call.issued), m.paramsAfter)
  }

  /** `delete(String)`: nothing happens for a blank identifier; otherwise one DELETE
      of the record's URI with no query parameters. */
  function DeleteById(server: Server, sysId: Option<string>): (r: Call<()>)
    ensures IsBlank(sysId) ==> r == Call(Success(()), [])
    ensures !IsBlank(sysId) ==>
      && r.issued == [Request(HttpDelete, Single(sysId.value), map[], None)]
      && (r.result.Failure? <==> server(r.issued[0]).Failed?)
      && (r.result.Failure? ==> r.result.error == TransportFailure(server(r.issued[0]).error))
  {
    if IsBlank(sysId) then Call(Success(()), [])
    else
      var req := Request(HttpDelete, Single(sysId.value), map[], None);
      match server(req)
      case Failed(e) => Call(Failure(TransportFailure(e)), [req])
      case Ok(_) => Call(Success(()), [req])
  }

  /** `delete(ObjectNode)`: nothing happens for a null record; otherwise `delete` of
      the record's identifier. */
  function DeleteRecord(server: Server, on: Option<Record>): (r: Call<()>)
    ensures on.None? ==> r == Call(Success(()), [])
    ensures on.Some? ==> r == DeleteById(server, SysId(on.value))
    ensures on.Some? && !HasNonNull(on.value, SYS_ID) ==> r.issued == []
  {
    if on.None? then Call(Success(()), [])
    else DeleteById(server, SysId(on.value))
  }
}
