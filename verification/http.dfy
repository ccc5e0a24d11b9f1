/** The transport as the accessor sees it: multi-valued query parameters, the requests
    it issues (verb, collection or single-record URI, parameters, body) and the
    server's answer to each of them. */
module Http {
  import opened Wrappers
  import opened JsonNodes

  /** Query parameters: a multi-valued map from parameter name to its values, in order. */
  type Params = map<string, seq<string>>

  /** Every name present carries at least one value. */
  predicate WellFormed(p: Params)
  {
    forall k :: k in p ==> p[k] != []
  }

  /** The values recorded under a name; none when the name is absent. */
  function Values(p: Params, key: string): seq<string>
  {
    if key in p then p[key] else []
  }

  /** Appends values under a name; appending no values leaves the parameters as they were. */
  function PutAll(p: Params, key: string, vs: seq<string>): (r: Params)
    ensures Values(r, key) == Values(p, key) + vs
    ensures forall k :: k != key ==> Values(r, k) == Values(p, k)
    ensures r.Keys == if vs == [] then p.Keys else p.Keys + {key}
    ensures WellFormed(p) ==> WellFormed(r)
    ensures p == map[] ==> r == if vs == [] then map[] else map[key := vs]
  {
    if vs == [] then p
    else if key in p then p[key := p[key] + vs]
    else p[key := vs]
  }

  /** Appends one value under a name. */
  function Put(p: Params, key: string, v: string): (r: Params)
    ensures Values(r, key) == Values(p, key) + [v]
    ensures forall k :: k != key ==> Values(r, k) == Values(p, k)
    ensures r.Keys == p.Keys + {key}
  {
    PutAll(p, key, [v])
  }

  datatype Verb = HttpGet | HttpPost | HttpPut | HttpDelete

  /** The table's collection URI, or the URI of the single record with the given id. */
  datatype Target = Collection | Single(id: string)

  datatype Request = Request(verb: Verb, target: Target, params: Params, body: Option<Record>)

  /** Why a request produced no body: a 4xx answer, a 5xx answer, or no answer at all.
      The status carried is not constrained to its class's range. */
  datatype TransportError = ClientError(status: int) | ServerError(status: int) | NoResponse

  datatype Response = Ok(body: Value) | Failed(error: TransportError)

  /** The server's answer to each request issued during one operation. */
  type Server = Request -> Response
}
