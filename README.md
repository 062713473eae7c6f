# Storage gateway request handlers, modelled in Dafny

This project models the request handling of a small Go storage gateway
(`server/handler.go`). The gateway accepts HTTP requests on five paths
(`/get`, `/save`, `/update`, `/upsert`, `/remove`). It decodes a JSON body
naming a collection, a `select` filter, `options`, a `data` document and
`include_fields`, optionally asks a permission check, and calls a MongoDB
client (`Find`, `Insert`, `Update` with `$set`, `Remove`). It stamps the
system fields `internal_id`, `cr_time` and `ch_time` into `data`, writes a
fixed-shape reply, and, when duplication is on, queues a copy of the
processed request for a duplication consumer.

Files and modules:

- `documents.dfy`, module `Documents`: the value union held by `select`,
  `data` and stored documents; the all-fields-equal filter rule; selection,
  `$set` merge, removal, limit and projection over a collection's documents.
- `store.dfy`, module `Store`: the store as a class `Store` holding a map
  from collection name to `seq<Document>`, plus a log of every call made to
  it. Its value twin `Db` has the functions that specify each store call.
- `requests.dfy`, module `Requests`: the request record, the duplication
  envelope, the configuration, the reply and the handler outcome; the stamping
  of system fields; reading the first match's id; building the envelope.
- `handler.dfy`, module `Handler`: the dispatcher and the five handlers. Each
  handler is written twice. A pure step function maps the state before the
  request to the outcome and the state after it. A method of class `Server`
  works step by step on the shared `Store` object and the outbound queue,
  and is proved to end in exactly the state its step function gives.
- `properties.dfy`, module `HandlerProperties`: the handlers' properties,
  proved as lemmas over the step functions.

Things the handlers take from outside are parameters:

- `body: Option<Request>` is the decoder's result; `None` is a decode error.
- `env.permission(collection, method, select)` is the permission check;
  `None` means allowed, `Some(text)` is the error text.
- `env.newId` is the fresh uuid.
- `env.clock(k)` is the k-th clock reading of the request, in Unix seconds.
- `env.fails(k)` says whether the k-th store call of the request fails.

A handler ends in one of three ways: `NoReply` (decode or store error, nothing
written), `Panicked` (a write into a nil `data` map, or a failed type
assertion; Go's HTTP server recovers and nothing is written), or
`Replied(reply)`. Effects made before a store error or a panic stay made.

Behaviour of the code worth knowing:

- Upsert's update path reads the id with the single-value assertion
  `item["internal_id"].(string)` (server/handler.go:237). When the first match
  comes back as a map (as the store is modelled, see "## Left out") and has no
  string `internal_id`, the handler panics; the id is not left empty. That
  includes a match whose projection drops the field (`include_fields` without
  `internal_id`). See `UpsertPanicsWithoutFirstMatchId`.
- `cr_time` and `ch_time` come from two separate clock readings
  (server/handler.go:128-129, 256-257). They are equal only when the two
  readings agree, not always.
- Update and upsert do not protect `internal_id` or `cr_time`. A caller who
  sends them in `data` overwrites the stored values (`UpdateFieldByField`).
- Update stamps `ch_time` before the permission gate (server/handler.go:167).
  A refused update with a nil `data` panics instead of replying with the denial.

## Model

| member | source | states |
|---|---|---|
| `Documents.Select` | server/handler.go:88 | a find returns only documents matching the filter, never more than are stored |
| `Documents.SelectMembers` | server/handler.go:88 | a document is selected if and only if it is stored and matches the filter |
| `Documents.Remaining` | server/handler.go:310 | what a removal leaves holds no matching document and is no longer than the collection |
| `Documents.RemainingMembers` | server/handler.go:310 | a document survives a removal if and only if it was stored and does not match |
| `Documents.SelectRemainingPartition` | server/handler.go:303-310 | selection and removal by one filter split the collection: their multisets add up to the stored one |
| `Documents.SelectRemainingCount` | server/handler.go:303-310 | a removal takes away exactly as many documents as the unlimited selection by the same filter holds |
| `Documents.SelectAppend` | server/handler.go:131-138 | after an insert, selection sees the new document at the end exactly when it matches |
| `Documents.EmptyFilterMatchesAll` | server/handler.go:88 | the filter rule `Matches`: an empty or absent `select` matches every document |
| `Documents.MismatchedFieldFails` | server/handler.go:88 | the filter rule `Matches`: a `select` field the document lacks, or holds with another value, rules the document out |
| `Documents.MatchesItself` | server/handler.go:138 | the filter rule `Matches`: a document matches itself used as a filter, which save's re-find by `data` relies on |
| `Documents.MergeEffect` | server/handler.go:178 | specifies the `$set` merge `Merge`: the `$set` update keeps the collection's length; a matching document gains every `$set` field and keeps its other fields; a non-matching one is unchanged |
| `Documents.Limit` | server/handler.go:88 | a limited result is a prefix of the matches: all of them when the limit is 0 or large enough, otherwise exactly `limit` |
| `Documents.Project` | server/handler.go:88 | `include_fields` keeps exactly the listed fields the document has, with their values; an empty list keeps all |
| `Documents.Shape` | server/handler.go:88 | a find's items are the limited matches, each projected, in stored order |
| `Store.Db.Query` | server/handler.go:88 | a find returns no more items than there are matches and no more than a nonzero limit, nothing exactly when nothing matches, and as item i the projection of the i-th match, as a map |
| `Store.Db.Inserted` | server/handler.go:131 | an insert appends the document to its collection and changes no other collection |
| `Store.Db.Updated` | server/handler.go:178 | an update applies the `$set` merge to its collection only, keeping its length |
| `Store.Db.Removed` | server/handler.go:310 | after a removal no document of the collection matches; other collections are unchanged |
| `Store.Store.Find` | server/handler.go:88 | a find logs the call and returns the shaped matches, or nothing when the call fails; documents are unchanged |
| `Store.Store.Insert` | server/handler.go:131 | an insert logs the call and, unless it fails, appends the document |
| `Store.Store.Update` | server/handler.go:178 | an update logs the call and, unless it fails, merges into the matches |
| `Store.Store.Remove` | server/handler.go:310 | a removal logs the call and, unless it fails, drops every match |
| `Requests.Gate` | server/handler.go:79-86 | a request is refused exactly when enforcement is on and the check refuses on (collection, method name, `select`); the denial is the check's own text |
| `Requests.GateIgnoresPayload` | server/handler.go:117-124 | the gate's answer does not depend on `data`, `options`, `include_fields` or `result`; save too is checked on `select` |
| `Requests.CreateStamp` | server/handler.go:126-129 | creation sets `internal_id` to the id and `cr_time`, `ch_time` to the two readings, overriding what was sent, and keeps every other field |
| `Requests.ChangeStamp` | server/handler.go:167 | a change stamp sets `ch_time` only; no `internal_id` or `cr_time` is added |
| `Requests.FirstMatchId` | server/handler.go:233-238 | a non-object first item gives the empty id; an object item gives its string `internal_id`, and panics if and only if it has none |
| `Requests.Duplicate` | server/handler.go:329-348 | no envelope when duplication is off, otherwise exactly one, holding the request with its method set to the storage method and labelled with the configured duplication method |
| `Handler.Route` | server/handler.go:44-67 | a path selects an operation if and only if it is `/` followed by that operation's method name |
| `Handler.Serve` | server/handler.go:44-67 | each of the five paths runs its own handler with its own method name; any other path replies nothing and changes nothing |
| `Handler.GetStep` | server/handler.go:69-105 | get makes at most one store call, queues at most one envelope and never changes a document; its full effect is stated by `GetReturnsQuery` |
| `Handler.SaveStep` | server/handler.go:107-155 | save makes at most two store calls, queues at most one envelope and changes no collection but the request's; its full effect is stated by `SaveStoresStampedDocument` |
| `Handler.UpdateStep` | server/handler.go:157-202 | update makes at most two store calls, queues at most one envelope, changes no collection but the request's, and that one keeps its number of documents; its full effect is stated by `UpdateMergesIntoMatches` |
| `Handler.UpsertStep` | server/handler.go:204-282 | upsert makes at most three store calls, queues at most one envelope and changes no collection but the request's; its full effect is stated by the `Upsert...` lemmas |
| `Handler.RemoveStep` | server/handler.go:284-327 | remove makes at most two store calls, queues at most one envelope, changes no collection but the request's, and never grows it or adds to it a document it did not hold; its full effect is stated by `RemoveDropsEveryMatch` |
| `Handler.Run` | server/handler.go:44-67 | whichever handler runs, it only appends to the store's call log (at most three calls) and to the queue (at most one envelope) and touches no collection but the request's |
| `Handler.Server.HandleServerRequest` | server/handler.go:44-67 | the dispatcher ends in the state and outcome `Serve` gives |
| `Handler.Server.Get` | server/handler.go:69-105 | the get handler ends in the state and outcome `GetStep` gives |
| `Handler.Server.Save` | server/handler.go:107-155 | the save handler ends in the state and outcome `SaveStep` gives |
| `Handler.Server.Update` | server/handler.go:157-202 | the update handler ends in the state and outcome `UpdateStep` gives |
| `Handler.Server.Upsert` | server/handler.go:204-282 | the upsert handler ends in the state and outcome `UpsertStep` gives |
| `Handler.Server.Remove` | server/handler.go:284-327 | the remove handler ends in the state and outcome `RemoveStep` gives |
| `Handler.Server.DuplicateRequest` | server/handler.go:329-351 | the queue gains exactly the envelopes `Duplicate` gives and nothing else changes |
| `HandlerProperties.DecodeFailureIsInert` | server/handler.go:72-77 | a body that does not decode gets no reply and causes no store call and no envelope, in every handler |
| `HandlerProperties.DeniedRequestTouchesNothing` | server/handler.go:79-86 | with enforcement on and the check refusing on (collection, method name, `select`), the reply is the error text and there is no store call and no envelope; save is checked on `select`, not `data` |
| `HandlerProperties.NoDenialWithoutEnforcement` | server/handler.go:117-124 | with enforcement off no handler replies with a denial |
| `HandlerProperties.NilDataPanicsBeforeStore` | server/handler.go:157-176 | in save and update a nil `data` panics before any store call; save checks permission first, update stamps first and so panics even when refused (get and remove never read `data`) |
| `HandlerProperties.UpsertNilDataPanicsAfterFind` | server/handler.go:223-257 | upsert reads `data` only after its find: with a nil `data` it panics after that one store call, on the update and the insert path alike, with no document changed and no envelope |
| `HandlerProperties.DuplicationFollowsCompletion` | server/handler.go:329-348 | exactly one envelope is appended when duplication is on and the handler completed, none otherwise; it carries the storage method inside and the configured label outside |
| `HandlerProperties.FirstStoreErrorStopsHandler` | server/handler.go:88-93 | in every handler a failing first store call ends it with no reply, no document changed (given the store model) and no envelope, after that one call; get, upsert and remove get there without `data` |
| `HandlerProperties.GetReturnsQuery` | server/handler.go:88-99 | get makes one find, replies with its result, queues it in the envelope and changes no document |
| `HandlerProperties.SaveStoresStampedDocument` | server/handler.go:126-149 | save inserts `data` stamped with the fresh id and the two readings (`cr_time` equals `ch_time` only when the readings do); the document stays stored if the re-find fails; success replies with that id |
| `HandlerProperties.SaveRefindReturnsNewDocument` | server/handler.go:138-147 | when the fresh id is new to the collection, the re-find by the stamped `data` returns exactly the new document, and that is the envelope's result (given the store model's filter rule) |
| `HandlerProperties.UpdateMergesIntoMatches` | server/handler.go:167-196 | update `$set`s `data` plus `ch_time` into every match of `select`, adds no `internal_id` or `cr_time`, replies bare `Ok`, and queues the re-found documents |
| `HandlerProperties.UpdateFieldByField` | server/handler.go:167-178 | unsent fields such as a stored `cr_time` are kept; a matching document gets the new `ch_time`; a sent field, even `cr_time` or `internal_id`, overwrites the stored value |
| `HandlerProperties.UpsertWithoutMatchIsSave` | server/handler.go:223-276 | upsert with no match has save's outcome, store and envelope (apart from the storage method) |
| `HandlerProperties.UpsertWithMatchIsUpdate` | server/handler.go:223-276 | upsert with a match has update's store; it replies with the first match's id exactly where update replies `Ok`; its envelope is update's (the stamped patch as `data`, the re-find on `select` as result) apart from the storage method |
| `HandlerProperties.UpsertInsertsWhenNothingMatches` | server/handler.go:252-276 | with no match the calls are exactly find, insert of the stamped document, find by it (no update); the reply carries the fresh id |
| `HandlerProperties.UpsertUpdatesWhenSomethingMatches` | server/handler.go:233-276 | with a match the calls are exactly find, one `$set` of `data` plus `ch_time` on `select`, find (no insert); the reply carries the first match's id |
| `HandlerProperties.UpsertStoreErrorKeepsDoneEffects` | server/handler.go:241-268 | a failing update or insert in upsert changes no document (given the store model); a failing re-find leaves the update or insert done; either way no reply and no envelope |
| `HandlerProperties.UpsertReplyIsFirstMatchId` | server/handler.go:233-237 | the update-path reply is the stored string `internal_id` of the first matching document, when the projection keeps it |
| `HandlerProperties.UpsertPanicsWithoutFirstMatchId` | server/handler.go:233-237 | the update path panics after the find, with no document changed and no envelope, when the first match has no string `internal_id` or the projection drops it |
| `HandlerProperties.RemoveDropsEveryMatch` | server/handler.go:303-321 | remove drops exactly the documents matching `select`, whatever the options; the envelope's result is the snapshot, which honours the limit, so it can hold fewer documents than were removed |
| `HandlerProperties.RemoveFailureChangesNothing` | server/handler.go:303-315 | if the snapshot find or the removal fails, no document changes (given the store model), nothing is written and nothing is queued |

## Left out

- HTTP transport: the response writer, the request body and write errors. The reply is a returned value; a failed write is not modelled.
- JSON encoding and decoding. Decoding is a parameter (a request record or a failure); the envelope is a record, not bytes. `json.Marshal` cannot fail on the modelled values, so the dropped-duplication path for a serialization error is not modelled.
- The MongoDB client: filter matching is the all-fields-equal rule (no query operators, no dotted paths), comparing embedded documents as maps, without regard to field order. `Options` is reduced to a result limit (0 means none), with no sort or skip. Projection keeps the `include_fields` fields and ignores `_id`. A failing store call is modelled as having no effect, so a multi-document update or removal that fails part-way is not modelled.
- The client is assumed to return each found document as a plain map, so the `.(map[string]interface{})` cast in upsert (server/handler.go:235) always succeeds and `FirstMatchId`'s empty-id case (a non-map item) is never reached from a handler. If the client returned another document type, that cast would fail and the id would stay empty; the model does not cover that.
- Numbers: Go decodes JSON numbers to `float64`; the model's `Value` has integers only (`Num(int)`), so rounding and non-integral values are not modelled.
- `get` writes the JSON of the whole find result (server/handler.go:99 writes `result`, not `result.Result`); the model's `Listing` reply holds only the result items.
- `checkPermissionRequest` is not part of this model; it is the `env.permission` parameter, asked about (collection, method name, `select`).
- `uuid.New()` and `time.Now()` are parameters (`env.newId`, `env.clock`). Clock monotonicity is not modelled. "`ch_time` strictly increases" would not hold anyway: `time.Now().Unix()` counts whole seconds, so two changes within one second get the same `ch_time`.
- `duplicateRequest` runs in a goroutine and sends on a channel. The model appends to the queue synchronously. Concurrency and the check-then-act races between requests (upsert, update, remove) are not modelled.
- `handleWebSocketRequest` has an empty body.
- Logging (`log`, `fmt`).
