# ObjectNodeTemplate — a verified model of a REST table accessor

`ObjectNodeTemplate` is a client-side accessor for a ServiceNow-style "table" REST
endpoint. Records are JSON objects; each record is addressed by its `sys_id` field.
The accessor offers `save`, `create`, `update`, `get`, the query family
(`findMany`, `findOne`, `getOne`, `getMany`) and `delete`. Most of the class hands work
to Spring's `RestTemplate`. Beneath that delegation sits a small amount of decision logic,
and this project models it and proves it:

- which operation `save` dispatches to;
- the guards that refuse a null argument or a blank identifier before any request;
- the shape of each request: verb, collection or single-record URI, `sysparm_fields` values;
- the translation of a 404 into "no matches" for queries, and only for queries;
- the classification of zero, one or many query results.

## Layout

- `wrappers.dfy` — `Option` (a Java reference that may be null) and `Result` (a value, or the exception thrown instead).
- `json_nodes.dfy` — JSON values, records as `map<string, Value>`, Jackson's `hasNonNull` and `asText`, string blankness, and `getString`.
- `http.dfy` — multi-valued query parameters, requests, transport errors, and the server as a function from request to response.
- `object_node_template.dfy` — the operations. Each one is a pure function of three inputs: the configuration (`Template`: the field names to request), the server's answers, and the argument. It returns a `Call`: the result or error, plus the requests issued, in order. The query family returns a `Query` instead: the `Call`, plus the caller's parameters as the query leaves them.
- `template_properties.dfy` — lemmas that relate the operations to each other and to the requests they issue.

The transport is abstract. The HTTP exchange becomes a parameter `server: Request -> Response`:
the server's answer to each request issued during one operation. Every operation issues at
most two requests. When it issues two (update's PUT and then GET), they are different
requests, so one function covers every possible server behaviour within a call. A
`Response` is either `Ok(body)` or `Failed(error)`. The error is a client error (4xx) with its
status, a server error (5xx) with its status, or no response at all; the model does not
constrain the status to its class's range. An error the source propagates reaches
the caller as `TransportFailure(error)`, unchanged.

## Model

| member | source | states |
|---|---|---|
| JsonNodes.GetString | core/src/main/java/com/tkmtwo/snops/jackson/ObjectNodeTemplate.java:51-58 | a field's text is present exactly when the field is present and not JSON null; it is then the field's `asText`, and the string itself for a textual field |
| Http.PutAll | core/src/main/java/com/tkmtwo/snops/jackson/ObjectNodeTemplate.java:83 | appending values under a parameter name extends that name's values in order and leaves every other name alone; appending nothing adds no name |
| Http.Put | core/src/main/java/com/tkmtwo/snops/jackson/ObjectNodeTemplate.java:114 | putting one value appends it under the name, which is then present, and leaves every other name's values unchanged |
| ObjectNodeTemplate.FieldSelection | core/src/main/java/com/tkmtwo/snops/jackson/ObjectNodeTemplate.java:82-83 | the field selection holds exactly the configured field names under `sysparm_fields` and no other parameter |
| ObjectNodeTemplate.UnwrapRecord | core/src/main/java/com/tkmtwo/snops/jackson/ObjectNodeTemplate.java:147-153 | a response yields a record exactly when its envelope key holds an object, and that object is the record |
| ObjectNodeTemplate.ToRecords | core/src/main/java/com/tkmtwo/snops/jackson/ObjectNodeTemplate.java:215-219 | the result array converts exactly when every element is an object; the records then have the array's length and element i is element i's fields |
| ObjectNodeTemplate.UnwrapRecords | core/src/main/java/com/tkmtwo/snops/jackson/ObjectNodeTemplate.java:215-219 | a missing envelope key is an error; an array payload yields records exactly when every element is an object, and then element i's fields in order with the same length; a null or scalar payload yields no records |
| ObjectNodeTemplate.Save | core/src/main/java/com/tkmtwo/snops/jackson/ObjectNodeTemplate.java:60-70 | a null record fails with no request; a blank or absent `sys_id` makes save behave exactly as create, and any other `sys_id` exactly as update |
| ObjectNodeTemplate.Create | core/src/main/java/com/tkmtwo/snops/jackson/ObjectNodeTemplate.java:75-98 | a null record fails with no request; otherwise exactly one POST is issued, to the collection, with the record as body and the field selection as its parameters; a transport error propagates unchanged and a success returns the enveloped record |
| ObjectNodeTemplate.Update | core/src/main/java/com/tkmtwo/snops/jackson/ObjectNodeTemplate.java:101-123 | a null record or a blank `sys_id` fails with no request; otherwise the first request is a PUT of the record to `{table}/{sysId}` with `sysparm_fields` exactly `["sys_id"]`; a failed PUT ends the call with that error, and a successful one is followed by get of the same id, whose result and requests complete the call |
| ObjectNodeTemplate.Get | core/src/main/java/com/tkmtwo/snops/jackson/ObjectNodeTemplate.java:128-154 | a blank id fails with no request; otherwise exactly one GET of `{table}/{sysId}`, carrying the field names only when some are configured; every transport error, 404 included, propagates unchanged |
| ObjectNodeTemplate.WithFields | core/src/main/java/com/tkmtwo/snops/jackson/ObjectNodeTemplate.java:195 | the caller's parameters after findMany: the field names are appended to `sysparm_fields`, every other parameter is unchanged, `sysparm_fields` is added as a name only when there are field names, and parameters with no empty entries stay so |
| TemplateProperties.ReusedParamsRepeatFields | core/src/main/java/com/tkmtwo/snops/jackson/ObjectNodeTemplate.java:194-195 | a caller who passes the same parameters to a second query after findMany has appended to them sends the field names twice, other parameters unchanged |
| ObjectNodeTemplate.FindMany | core/src/main/java/com/tkmtwo/snops/jackson/ObjectNodeTemplate.java:187-220 | null parameters fail with no request; otherwise the caller's parameters are left with the field names appended, and exactly one GET of the collection carries them; a 404 client error yields the empty list, any other transport error propagates unchanged, a result array of objects yields its elements in order with the same length, and a null or scalar payload yields the empty list |
| ObjectNodeTemplate.FindOne | core/src/main/java/com/tkmtwo/snops/jackson/ObjectNodeTemplate.java:179-184 | issues what findMany issues and leaves the caller's parameters as findMany does; zero records give absent, one record gives that record, n >= 2 records fail with IncorrectResultSize(1, n); findMany's errors pass through |
| ObjectNodeTemplate.GetOne | core/src/main/java/com/tkmtwo/snops/jackson/ObjectNodeTemplate.java:170-176 | fails with IncorrectResultSize(1, 0) exactly when findOne is absent; otherwise gives findOne's record or error |
| ObjectNodeTemplate.GetMany | core/src/main/java/com/tkmtwo/snops/jackson/ObjectNodeTemplate.java:161-167 | issues what findMany issues; fails with the no-records error exactly when findMany returns the empty list; every other findMany outcome, a non-empty list or an error, is returned unchanged, so a success is never empty |
| ObjectNodeTemplate.DeleteById | core/src/main/java/com/tkmtwo/snops/jackson/ObjectNodeTemplate.java:236-252 | a blank id issues nothing and succeeds; otherwise exactly one DELETE of `{table}/{sysId}` with no query parameters, failing exactly when the transport fails, with that error |
| ObjectNodeTemplate.DeleteRecord | core/src/main/java/com/tkmtwo/snops/jackson/ObjectNodeTemplate.java:229-235 | a null record issues nothing; otherwise behaves as delete of the record's `sys_id`, so a record without a non-null `sys_id` issues nothing |
| TemplateProperties.RecordsRoundTrip | core/src/main/java/com/tkmtwo/snops/jackson/ObjectNodeTemplate.java:215-219 | converting an array of object nodes built from records gives back exactly those records |
| TemplateProperties.FindManyReturnsServerRecords | core/src/main/java/com/tkmtwo/snops/jackson/ObjectNodeTemplate.java:203-219 | a query answered with an envelope holding records returns exactly those records, in server order |
| TemplateProperties.SaveWithoutSysIdCreates | core/src/main/java/com/tkmtwo/snops/jackson/ObjectNodeTemplate.java:63-66 | saving a record with no `sys_id`, or a null one, issues exactly one POST to the collection and nothing else |
| TemplateProperties.SaveWithSysIdUpdates | core/src/main/java/com/tkmtwo/snops/jackson/ObjectNodeTemplate.java:63-69 | saving a record with a non-blank `sys_id` starts with a PUT to that id, and every request it issues targets that id and none is a POST |
| TemplateProperties.UpdateIsPutThenGet | core/src/main/java/com/tkmtwo/snops/jackson/ObjectNodeTemplate.java:113-122 | an update whose PUT succeeds issues exactly one PUT followed by exactly one GET of the same id, and returns the GET's result |
| TemplateProperties.UpdateIgnoresFieldSelection | core/src/main/java/com/tkmtwo/snops/jackson/ObjectNodeTemplate.java:111-116 | the PUT of an update is the same whatever field names are configured, and asks only for `sys_id` |
| TemplateProperties.CreateAndGetSelectSameFields | core/src/main/java/com/tkmtwo/snops/jackson/ObjectNodeTemplate.java:134-140 | create and get send the same field selection; get's test for an empty field list makes no observable difference |
| TemplateProperties.NotFoundAsymmetry | core/src/main/java/com/tkmtwo/snops/jackson/ObjectNodeTemplate.java:208-211 | when every request is answered 404, findMany is empty, findOne absent, getOne and getMany fail on size, and get fails with the 404 itself |
| TemplateProperties.QueryPropagatesOtherErrors | core/src/main/java/com/tkmtwo/snops/jackson/ObjectNodeTemplate.java:208-213 | every transport error other than a 404 client error reaches the callers of all four query operations unchanged |
| TemplateProperties.QueriesIssueOneCollectionGet | core/src/main/java/com/tkmtwo/snops/jackson/ObjectNodeTemplate.java:195-204 | each query operation issues exactly one request, a GET of the collection with the caller's parameters plus the field names |
| TemplateProperties.FindOneOfManyFails | core/src/main/java/com/tkmtwo/snops/jackson/ObjectNodeTemplate.java:179-183 | with n >= 2 matches, findOne and getOne fail with IncorrectResultSize(1, n) while getMany returns all n |
| TemplateProperties.FindOneOfOne | core/src/main/java/com/tkmtwo/snops/jackson/ObjectNodeTemplate.java:179-182 | with exactly one match, findOne and getOne return it |
| TemplateProperties.GetManyReturnsAll | core/src/main/java/com/tkmtwo/snops/jackson/ObjectNodeTemplate.java:161-166 | getMany over N >= 1 matching records, one included, returns all N in the server's order |
| TemplateProperties.ScalarPayloadIsNoRecords | core/src/main/java/com/tkmtwo/snops/jackson/ObjectNodeTemplate.java:215-219 | a query whose envelope holds JSON null or a scalar returns no records and findOne is absent |
| TemplateProperties.DeleteWithoutIdIsNoOp | core/src/main/java/com/tkmtwo/snops/jackson/ObjectNodeTemplate.java:229-240 | deleting a null record, a record with a blank or absent `sys_id`, or the empty id issues nothing and succeeds |
| TemplateProperties.CreateThenGet | core/src/main/java/com/tkmtwo/snops/jackson/ObjectNodeTemplate.java:147-153 | if the server answers the read of the created record's own `sys_id` with that record, get of that id uses create's field selection and returns create's record, whose `sys_id` is the id read |
| TemplateProperties.EmptyResultScenario | core/src/main/java/com/tkmtwo/snops/jackson/ObjectNodeTemplate.java:170-181 | an empty result array gives an empty findMany and a getOne failing with IncorrectResultSize(1, 0) |
| TemplateProperties.GetRecordScenario | core/src/main/java/com/tkmtwo/snops/jackson/ObjectNodeTemplate.java:128-153 | when the server answers the GET of `abc123`'s URI with that record's envelope, get of `abc123` returns a record whose `sys_id` is `abc123` and whose `name` is `foo`; no other answer of the server matters |

## Left out

- HTTP transport (`RestTemplate`'s `postForObject`, `put`, `getForObject`, `delete`): network I/O. It is replaced by the `server` parameter, and the issued requests are recorded in `Call.issued`.
- URI building, `getFieldNames` and the constructors belong to the superclass `AbstractTableTemplate`, which is not part of this model. A URI is only "collection" or "single record with this id", plus its parameters. The path prefix and table name are the same for every request of one accessor and are not modelled; neither is the constructors' check that the table name is not blank.
- Constant values: the superclass and `TableParams` are not part of this model. The envelope key is taken to be `result` and the field-selection parameter `sysparm_fields`.
- `Params` is not part of this model. Its `putAll` is taken to append values under a name, in order; appending no values adds no name (multimap semantics). So create, which appends the field names unconditionally, and get, which tests for an empty list first, send the same parameters.
- `TkmTwoStrings.isBlank` is not part of this model. Blankness is taken to mean null, or only Java whitespace characters from the ASCII range; non-ASCII whitespace is not modelled.
- Jackson is not modelled. Parsing and serialisation are left out: a record is a map from field name to value, a response body is a JSON value, and `asText` of a number is its lexeme as stored.
- A response with no envelope key is `MalformedResponse` in the model. In the source, create and get return null, and findMany dereferences null. This behaviour is undefined upstream, so the contracts name the error and specify nothing more.
- UnwrapRecord: a create or get payload that is not an object is `MalformedResponse`. The source fails its cast to `ObjectNode` there.
- UnwrapRecords: an object payload is reported as `MalformedResponse`. The source's loop would iterate that object's field values in field order, but records here are unordered maps. An array element that is not an object is `MalformedResponse` too; the source fails its cast there.
- FindMany: the in-place change to the caller's `Params` object is returned as the query's `paramsAfter` value, not modelled as aliasing. FindOne, GetOne and GetMany pass that value on.
- Exceptions thrown by `checkNotNull` and `checkNotBlank` are the errors `NullArgument` and `InvalidArgument`. Their messages are not modelled. The same goes for getMany's message-only `IncorrectResultSizeException` (`NoRecords`).
- Logging and trace calls have no behavioural effect.
- CreateThenGet: server-side state across separate calls is not modelled, because each call gets its own server answers. The round trip is therefore stated for a server whose read of the created identifier answers with the created record.
