/** Properties relating the accessor's operations to each other and to the requests
    they issue: save's dispatch, update's PUT-then-GET, the 404 asymmetry between get
    and the query family, result-size classification and delete's silent no-ops. */
module TemplateProperties {
  import opened Wrappers
  import opened JsonNodes
  import opened Http
  import opened ObjectNodeTemplate

  /** The JSON array a server sends for the given records, in order. */
  function Objects(rs: seq<Record>): (vs: seq<Value>)
    ensures |vs| == |rs|
  {
    if rs == [] then [] else [Object(rs[0])] + Objects(rs[1..])
  }

  /** Decoding the array a server built from records gives back those records. */
  lemma {:induction false} RecordsRoundTrip(rs: seq<Record>)
    ensures ToRecords(Objects(rs)) == Some(rs)
  {
    if rs != [] {
      RecordsRoundTrip(rs[1..]);
      assert Objects(rs)[1..] == Objects(rs[1..]);
      assert [rs[0]] + rs[1..] == rs;
    }
  }

  /** A query answered with an envelope holding the records `rs` returns exactly `rs`,
      in the server's order. */
  lemma FindManyReturnsServerRecords(t: Template, server: Server, p: Params, rs: seq<Record>)
    requires server(Request(HttpGet, Collection, WithFields(t, p), None)) == Ok(Envelope(Array(Objects(rs))))
    ensures FindMany(t, server, Some(p)).call.result == Success(rs)
  {
    RecordsRoundTrip(rs);
  }

  /** A record with no identifier, or a null one, is saved by one POST to the collection
      and by no other request. */
  lemma SaveWithoutSysIdCreates(t: Template, server: Server, on: Record)
    requires !HasNonNull(on, SYS_ID)
    ensures Save(t, server, Some(on)) == Create(t, server, Some(on))
    ensures Save(t, server, Some(on)).issued ==
      [Request(HttpPost, Collection, FieldSelection(t), Some(on))]
  {
  }

  /** A record with a non-blank identifier is saved by a PUT to its own URI, and save
      never issues a POST for it. */
  lemma SaveWithSysIdUpdates(t: Template, server: Server, on: Record, id: string)
    requires SysId(on) == Some(id) && !IsBlank(Some(id))
    ensures Save(t, server, Some(on)) == Update(t, server, Some(on))
    ensures Save(t, server, Some(on)).issued[0].verb == HttpPut
    ensures Save(t, server, Some(on)).issued[0].target == Single(id)
    ensures forall q :: q in Save(t, server, Some(on)).issued ==> q.verb != HttpPost && q.target == Single(id)
  {
  }

  /** An update whose PUT succeeds issues exactly one PUT followed by exactly one GET,
      both addressed to the record's identifier; its result is that GET's record. */
  lemma UpdateIsPutThenGet(t: Template, server: Server, on: Record, id: string)
    requires SysId(on) == Some(id) && !IsBlank(Some(id))
    requires server(Request(HttpPut, Single(id), map[SYSPARM_FIELDS := [SYS_ID]], Some(on))).Ok?
    ensures |Update(t, server, Some(on)).issued| == 2
    ensures Update(t, server, Some(on)).issued[0].verb == HttpPut
    ensures Update(t, server, Some(on)).issued[1] == Get(t, server, Some(id)).issued[0]
    ensures Update(t, server, Some(on)).issued[1].verb == HttpGet
    ensures Update(t, server, Some(on)).issued[1].target == Single(id)
    ensures Update(t, server, Some(on)).result == Get(t, server, Some(id)).result
  {
  }

  /** The PUT of an update asks for `sys_id` only, whatever field names are configured. */
  lemma UpdateIgnoresFieldSelection(t1: Template, t2: Template, server: Server, on: Record)
    requires !IsBlank(SysId(on))
    ensures Update(t1, server, Some(on)).issued[0] == Update(t2, server, Some(on)).issued[0]
    ensures Values(Update(t1, server, Some(on)).issued[0].params, SYSPARM_FIELDS) == [SYS_ID]
  {
  }

  /** Create and get request the same field selection, although only get tests for an
      empty field list: appending no values adds no parameter. */
  lemma CreateAndGetSelectSameFields(t: Template, server: Server, on: Record, id: string)
    requires !IsBlank(Some(id))
    ensures Create(t, server, Some(on)).issued[0].params == Get(t, server, Some(id)).issued[0].params
  {
  }

  /** A 404 is "no matches" for the query family but an error for get. */
  lemma NotFoundAsymmetry(t: Template, server: Server, p: Params, id: string)
    requires forall q :: server(q) == Failed(ClientError(NOT_FOUND))
    requires !IsBlank(Some(id))
    ensures FindMany(t, server, Some(p)).call.result == Success([])
    ensures FindOne(t, server, Some(p)).call.result == Success(None)
    ensures GetOne(t, server, Some(p)).call.result == Failure(IncorrectResultSize(1, 0))
    ensures GetMany(t, server, Some(p)).call.result == Failure(NoRecords)
    ensures Get(t, server, Some(id)).result == Failure(TransportFailure(ClientError(NOT_FOUND)))
  {
  }

  /** Every transport error other than a 404 client error reaches the caller of a query
      unchanged. */
  lemma QueryPropagatesOtherErrors(t: Template, server: Server, p: Params, e: TransportError)
    requires server(Request(HttpGet, Collection, WithFields(t, p), None)) == Failed(e)
    requires e != ClientError(NOT_FOUND)
    ensures FindMany(t, server, Some(p)).call.result == Failure(TransportFailure(e))
    ensures FindOne(t, server, Some(p)).call.result == Failure(TransportFailure(e))
    ensures GetOne(t, server, Some(p)).call.result == Failure(TransportFailure(e))
    ensures GetMany(t, server, Some(p)).call.result == Failure(TransportFailure(e))
  {
  }

  /** The query family issues one GET of the collection and nothing else. */
  lemma QueriesIssueOneCollectionGet(t: Template, server: Server, p: Params)
    ensures
      var q := [Request(HttpGet, Collection, WithFields(t, p), None)];
      && FindMany(t, server, Some(p)).call.issued == q
      && FindOne(t, server, Some(p)).call.issued == q
      && GetOne(t, server, Some(p)).call.issued == q
      && GetMany(t, server, Some(p)).call.issued == q
  {
  }

  /** findOne over n >= 2 records reports both the expected and the actual count. */
  lemma FindOneOfManyFails(t: Template, server: Server, p: Params, rs: seq<Record>)
    requires |rs| >= 2
    requires FindMany(t, server, Some(p)).call.result == Success(rs)
    ensures FindOne(t, server, Some(p)).call.result == Failure(IncorrectResultSize(1, |rs|))
    ensures GetOne(t, server, Some(p)).call.result == Failure(IncorrectResultSize(1, |rs|))
    ensures GetMany(t, server, Some(p)).call.result == Success(rs)
  {
  }

  /** findOne over exactly one record returns it, and so does getOne. */
  lemma FindOneOfOne(t: Template, server: Server, p: Params, rec: Record)
    requires server(Request(HttpGet, Collection, WithFields(t, p), None)) == Ok(Envelope(Array([Object(rec)])))
    ensures FindOne(t, server, Some(p)).call.result == Success(Some(rec))
    ensures GetOne(t, server, Some(p)).call.result == Success(rec)
  {
    assert Objects([rec]) == [Object(rec)];
    FindManyReturnsServerRecords(t, server, p, [rec]);
  }

  /** Deleting a null record, or a record without a usable identifier, issues nothing. */
  lemma DeleteWithoutIdIsNoOp(server: Server, on: Record)
    requires IsBlank(SysId(on))
    ensures DeleteRecord(server, None) == Call(Success(()), [])
    ensures DeleteRecord(server, Some(on)) == Call(Success(()), [])
    ensures DeleteById(server, Some("")) == Call(Success(()), [])
  {
  }

  /** With a server whose read of the created record's identifier answers with that
      record, get of that identifier returns the record create returned, under the
      same field selection create asked for. */
  lemma CreateThenGet(t: Template, s1: Server, s2: Server, on: Record, rec: Record, id: string)
    requires Create(t, s1, Some(on)).result == Success(rec)
    requires SysId(rec) == Some(id) && !IsBlank(Some(id))
    requires s2(Request(HttpGet, Single(id), FieldSelection(t), None)) == Ok(Envelope(Object(rec)))
    ensures Get(t, s2, Some(id)).issued[0].params == Create(t, s1, Some(on)).issued[0].params
    ensures Get(t, s2, Some(id)).result == Create(t, s1, Some(on)).result
    ensures SysId(Get(t, s2, Some(id)).result.value) == Some(id)
  {
  }

  /** getMany returns every record of a non-empty result, one record included, in order. */
  lemma GetManyReturnsAll(t: Template, server: Server, p: Params, rs: seq<Record>)
    requires rs != []
    requires server(Request(HttpGet, Collection, WithFields(t, p), None)) == Ok(Envelope(Array(Objects(rs))))
    ensures GetMany(t, server, Some(p)).call.result == Success(rs)
  {
    FindManyReturnsServerRecords(t, server, p, rs);
  }

  /** A null or scalar payload under the envelope key holds no elements: no records. */
  lemma ScalarPayloadIsNoRecords(t: Template, server: Server, p: Params, v: Value)
    requires v.Null? || v.Bool? || v.Number? || v.Text?
    requires server(Request(HttpGet, Collection, WithFields(t, p), None)) == Ok(Envelope(v))
    ensures FindMany(t, server, Some(p)).call.result == Success([])
    ensures FindOne(t, server, Some(p)).call.result == Success(None)
  {
  }

  /** Because findMany appends to the caller's parameters, a caller who reuses them for
      a second query sends the field names twice. */
  lemma ReusedParamsRepeatFields(t: Template, s1: Server, s2: Server, p: Params)
    ensures
      var first := FindMany(t, s1, Some(p));
      var second := FindMany(t, s2, first.paramsAfter);
      && Values(second.call.issued[0].params, SYSPARM_FIELDS)
         == Values(p, SYSPARM_FIELDS) + t.fieldNames + t.fieldNames
      && forall k :: k != SYSPARM_FIELDS ==> Values(second.call.issued[0].params, k) == Values(p, k)
  {
  }

  /** An empty result array: findMany is empty and getOne fails with (1, 0). */
  lemma EmptyResultScenario(t: Template, server: Server)
    requires server(Request(HttpGet, Collection, WithFields(t, map[]), None)) == Ok(Envelope(Array([])))
    ensures FindMany(t, server, Some(map[])).call.result == Success([])
    ensures GetOne(t, server, Some(map[])).call.result == Failure(IncorrectResultSize(1, 0))
  {
  }

  /** A record envelope for `abc123`: get returns its identifier and name fields. */
  lemma GetRecordScenario(t: Template, server: Server)
    requires server(Request(HttpGet, Single("abc123"), FieldSelection(t), None))
      == Ok(Envelope(Object(map[SYS_ID := Text("abc123"), "name" := Text("foo")])))
    ensures Get(t, server, Some("abc123")).result.Success?
    ensures GetString(Get(t, server, Some("abc123")).result.value, SYS_ID) == Some("abc123")
    ensures GetString(Get(t, server, Some("abc123")).result.value, "name") == Some("foo")
  {
    assert !IsWhitespace("abc123"[0]);
  }
}
