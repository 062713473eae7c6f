/**
 * The records a handler works on: the decoded request, the duplication
 * envelope, the server configuration, the reply written to the caller, and
 * the values a handler takes from its surroundings (permission check, uuid,
 * clock, store failures). Also the small pure steps the handlers share:
 * stamping system fields, reading the first match's id, building the
 * duplication envelope.
 */
module Requests {
  import opened Documents

  /** Storage method names: the `method` label of a duplicated request. */
  const GetMethod: string := "get"
  const SaveMethod: string := "save"
  const UpdateMethod: string := "update"
  const UpsertMethod: string := "upsert"
  const RemoveMethod: string := "remove"

  /** System fields stamped into `data`. */
  const InternalId: string := "internal_id"
  const CrTime: string := "cr_time"
  const ChTime: string := "ch_time"

  /** A decoded request body. A missing or null `data` decodes to a nil map,
      written None here; a nil `select` matches everything, like an empty one. */
  datatype Request = Request(
    collection: string,
    select: Document,
    options: Options,
    data: Option<Document>,
    includeFields: seq<string>,
    methodName: string,
    result: seq<Value>)

  /** What is queued for the duplication consumer: the processed request
      (its `method` set to the storage method) and the configured label. */
  datatype Envelope = Envelope(data: Request, methodName: string)

  datatype Config = Config(usePermissionAuth: bool, duplication: bool, duplicateMethod: string)

  /** The body written back to the caller. */
  datatype Reply =
    | Denied(reason: string)          // the permission error text, verbatim
    | Listing(result: seq<Value>)     // a find result (get)
    | StatusOk                        // {"Status":"Ok"}
    | StatusOkResult(id: string)      // {"Status":"Ok","Result": id}

  /** How a handler ends: nothing written (decode or store error), a panic
      (recovered by the HTTP server, nothing written), or a reply. */
  datatype Outcome = NoReply | Panicked | Replied(reply: Reply)

  /** What a handler takes from outside: the permission check on
      (collection, method, select), None meaning allowed; the fresh uuid; the
      k-th clock reading in Unix seconds; whether the k-th store call fails. */
  datatype Env = Env(
    permission: (string, string, Document) -> Option<string>,
    newId: string,
    clock: nat -> int,
    fails: nat -> bool)

  /** The permission gate: the denial text when enforcement is on and the
      check refuses, None otherwise. */
  function Gate(cfg: Config, env: Env, req: Request, methodName: string): (r: Option<string>)
    ensures r.Some? <==> cfg.usePermissionAuth && env.permission(req.collection, methodName, req.select).Some?
    ensures r.Some? ==> r == env.permission(req.collection, methodName, req.select)
  {
    if cfg.usePermissionAuth then env.permission(req.collection, methodName, req.select) else None
  }

  /** The gate looks at the collection and `select` only: what the request
      carries in `data`, `options`, `include_fields` or `result` never changes
      its answer. */
  lemma GateIgnoresPayload(cfg: Config, env: Env, req: Request, methodName: string,
                           data: Option<Document>, options: Options, fields: seq<string>, result: seq<Value>)
    ensures Gate(cfg, env, req, methodName)
         == Gate(cfg, env, req.(data := data, options := options, includeFields := fields, result := result), methodName)
  {
  }

  /** Creation stamps: `internal_id`, `cr_time` and `ch_time` are set,
      overriding whatever the caller sent; every other field is kept. */
  function CreateStamp(data: Document, id: string, crTime: int, chTime: int): (r: Document)
    ensures r.Keys == data.Keys + {InternalId, CrTime, ChTime}
    ensures r[InternalId] == Str(id) && r[CrTime] == Num(crTime) && r[ChTime] == Num(chTime)
    ensures forall k :: k in data && k !in {InternalId, CrTime, ChTime} ==> r[k] == data[k]
  {
    data[InternalId := Str(id)][CrTime := Num(crTime)][ChTime := Num(chTime)]
  }

  /** Change stamp: only `ch_time` is set; no `internal_id` or `cr_time` is added. */
  function ChangeStamp(data: Document, now: int): (r: Document)
    ensures r.Keys == data.Keys + {ChTime}
    ensures r[ChTime] == Num(now)
    ensures forall k :: k in data && k != ChTime ==> r[k] == data[k]
  {
    data[ChTime := Num(now)]
  }

  /** The id read from the first find result: a non-object item leaves the id
      empty; an object item must carry a string `internal_id`, otherwise the
      single-value type assertion panics. */
  datatype IdLookup = HasId(id: string) | AssertionPanics

  function FirstMatchId(result: seq<Value>): (r: IdLookup)
    requires |result| > 0
    ensures !result[0].Obj? ==> r == HasId("")
    ensures result[0].Obj? ==>
      (r.HasId? <==> InternalId in result[0].fields && result[0].fields[InternalId].Str?)
    ensures result[0].Obj? && r.HasId? ==> result[0].fields[InternalId] == Str(r.id)
  {
    match result[0]
    case Obj(item) =>
      if InternalId in item && item[InternalId].Str? then HasId(item[InternalId].s) else AssertionPanics
    case _ => HasId("")
  }

  /** The envelopes a completed handler queues: none when duplication is off,
      otherwise exactly one, holding the request with its `method` set to the
      storage method and labelled with the configured duplication method. */
  function Duplicate(enabled: bool, req: Request, storageMethod: string, handlerMethod: string): (r: seq<Envelope>)
    ensures |r| == if enabled then 1 else 0
    ensures forall e :: e in r ==>
      e.data == req.(methodName := storageMethod) && e.methodName == handlerMethod
  {
    if enabled then [Envelope(req.(methodName := storageMethod), handlerMethod)] else []
  }
}
