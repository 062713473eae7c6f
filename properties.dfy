/**
 * Properties of the gateway's handlers, stated over their step functions:
 * what happens on a decode error, at the permission gate and on a store
 * error; which store calls each handler makes, in which order, with which
 * documents; what the reply and the duplication envelope carry.
 */
module HandlerProperties {
  import opened Documents
  import opened Store
  import opened Requests
  import opened Handler

  /** A handler completed its work: it wrote a reply other than a denial. */
  predicate Completed(o: Outcome)
  {
    o.Replied? && !o.reply.Denied?
  }

  /** The same surroundings with store calls counted from the second one on:
      what a handler sees when a find already took call 0. */
  function Later(env: Env): Env
  {
    env.(fails := (k: nat) => env.fails(k + 1))
  }

  /** A body that does not decode stops every handler before anything else. */
  lemma DecodeFailureIsInert(op: Operation, cfg: Config, w: World, env: Env, methodName: string)
    ensures Run(op, cfg, w, None, env, methodName) == Step(NoReply, w)
  {
  }

  /** With enforcement on and the check refusing, the reply is the denial
      text and nothing else happens: no store call, no envelope. Every
      handler asks the check about `select` (save included, not `data`).
      Update stamps `data` first, so it only gets here with a non-nil `data`. */
  lemma DeniedRequestTouchesNothing(op: Operation, cfg: Config, w: World, req: Request, env: Env, reason: string)
    requires cfg.usePermissionAuth
    requires env.permission(req.collection, op.Name(), req.select) == Some(reason)
    requires op == UpdateOp ==> req.data.Some?
    ensures Run(op, cfg, w, Some(req), env, op.Name()) == Step(Replied(Denied(reason)), w)
  {
  }

  /** With enforcement off, no handler ever answers with a denial. */
  lemma NoDenialWithoutEnforcement(op: Operation, cfg: Config, w: World, body: Option<Request>, env: Env, methodName: string)
    requires !cfg.usePermissionAuth
    ensures !Run(op, cfg, w, body, env, methodName).outcome.Replied?
         || !Run(op, cfg, w, body, env, methodName).outcome.reply.Denied?
  {
  }

  /** A nil `data` panics in save and update before any store call; save
      checks permission first, update stamps `ch_time` first, so a refused
      update with a nil `data` panics instead of replying with the denial. */
  lemma NilDataPanicsBeforeStore(cfg: Config, w: World, req: Request, env: Env, methodName: string)
    requires req.data.None?
    ensures UpdateStep(cfg, w, Some(req), env, methodName) == Step(Panicked, w)
    ensures SaveStep(cfg, w, Some(req), env, methodName) ==
      (var denial := Gate(cfg, env, req, methodName);
       if denial.Some? then Step(Replied(Denied(denial.value)), w) else Step(Panicked, w))
  {
  }

  /** upsert reads `data` only after its find: with a nil `data` it panics
      after that one call, on either path, with no document changed. */
  lemma UpsertNilDataPanicsAfterFind(cfg: Config, w: World, req: Request, env: Env, methodName: string)
    requires Gate(cfg, env, req, methodName).None? && !env.fails(0) && req.data.None?
    ensures UpsertStep(cfg, w, Some(req), env, methodName)
         == Step(Panicked, w.(db := w.db.Log(FindCall(req.collection, req.select, req.options, req.includeFields))))
  {
  }

  /** Duplication: an envelope is queued exactly when duplication is on and
      the handler completed; it is appended after the existing ones, carries
      the handler's storage method inside and the configured label outside.
      A decode error, a denial, a panic or a store error queues nothing. */
  lemma DuplicationFollowsCompletion(op: Operation, cfg: Config, w: World, body: Option<Request>, env: Env, methodName: string)
    ensures var s := Run(op, cfg, w, body, env, methodName);
      && w.outbox <= s.world.outbox
      && |s.world.outbox| == |w.outbox| + (if cfg.duplication && Completed(s.outcome) then 1 else 0)
      && (|s.world.outbox| > |w.outbox| ==>
            s.world.outbox[|w.outbox|].methodName == cfg.duplicateMethod
            && s.world.outbox[|w.outbox|].data.methodName == op.Name())
  {
    if op == UpsertOp {
      UpsertQueuesOnCompletion(cfg, w, body, env, methodName);
    }
  }

  /** The upsert case of DuplicationFollowsCompletion. */
  lemma UpsertQueuesOnCompletion(cfg: Config, w: World, body: Option<Request>, env: Env, methodName: string)
    ensures var s := UpsertStep(cfg, w, body, env, methodName);
      && w.outbox <= s.world.outbox
      && |s.world.outbox| == |w.outbox| + (if cfg.duplication && Completed(s.outcome) then 1 else 0)
      && (|s.world.outbox| > |w.outbox| ==>
            s.world.outbox[|w.outbox|].methodName == cfg.duplicateMethod
            && s.world.outbox[|w.outbox|].data.methodName == UpsertMethod)
  {
  }

  /** A failing first store call stops every handler: nothing is written,
      no document changes, nothing is queued; only that call was made. Only
      save and update need `data` to get as far as that call. */
  lemma FirstStoreErrorStopsHandler(op: Operation, cfg: Config, w: World, req: Request, env: Env, methodName: string)
    requires Gate(cfg, env, req, methodName).None? && env.fails(0)
    requires (op == SaveOp || op == UpdateOp) ==> req.data.Some?
    ensures var s := Run(op, cfg, w, Some(req), env, methodName);
      && s.outcome == NoReply
      && s.world.db.collections == w.db.collections
      && s.world.outbox == w.outbox
      && |s.world.db.calls| == |w.db.calls| + 1
  {
  }

  /** get: one find with the request's filter, options and projection; the
      reply and the envelope both hold its result; no document changes. */
  lemma GetReturnsQuery(cfg: Config, w: World, req: Request, env: Env, methodName: string)
    requires Gate(cfg, env, req, methodName).None? && !env.fails(0)
    ensures var s := GetStep(cfg, w, Some(req), env, methodName);
      var result := w.db.Query(req.collection, req.select, req.options, req.includeFields);
      && s.outcome == Replied(Listing(result))
      && s.world.db.collections == w.db.collections
      && s.world.db.calls == w.db.calls + [FindCall(req.collection, req.select, req.options, req.includeFields)]
      && s.world.outbox == w.outbox + Duplicate(cfg.duplication, req.(result := result), GetMethod, cfg.duplicateMethod)
  {
  }

  /** save: the inserted document is `data` with `internal_id` set to the fresh
      id and `cr_time`, `ch_time` set from two clock readings (equal only when
      the readings are); it stays stored even if the re-find fails; on success
      the reply carries that same id. */
  lemma SaveStoresStampedDocument(cfg: Config, w: World, req: Request, env: Env, methodName: string)
    requires Gate(cfg, env, req, methodName).None? && req.data.Some? && !env.fails(0)
    ensures var s := SaveStep(cfg, w, Some(req), env, methodName);
      var doc := CreateStamp(req.data.value, env.newId, env.clock(0), env.clock(1));
      && s.world.db.Docs(req.collection) == w.db.Docs(req.collection) + [doc]
      && (forall c :: c != req.collection ==> s.world.db.Docs(c) == w.db.Docs(c))
      && doc[InternalId] == Str(env.newId)
      && doc[CrTime] == Num(env.clock(0)) && doc[ChTime] == Num(env.clock(1))
      && (doc[CrTime] == doc[ChTime] <==> env.clock(0) == env.clock(1))
      && (env.fails(1) ==> s.outcome == NoReply && s.world.outbox == w.outbox)
      && (!env.fails(1) ==> s.outcome == Replied(StatusOkResult(env.newId)))
  {
  }

  /** save's re-find by the stamped `data` returns exactly the new document
      (projected), provided no stored document of the collection already
      carries the fresh id: that is what the envelope's result holds. */
  lemma SaveRefindReturnsNewDocument(cfg: Config, w: World, req: Request, env: Env, methodName: string)
    requires Gate(cfg, env, req, methodName).None? && req.data.Some?
    requires !env.fails(0) && !env.fails(1)
    requires forall d :: d in w.db.Docs(req.collection) ==>
      !(InternalId in d && d[InternalId] == Str(env.newId))
    ensures var doc := CreateStamp(req.data.value, env.newId, env.clock(0), env.clock(1));
      var s := SaveStep(cfg, w, Some(req), env, methodName);
      && s.outcome == Replied(StatusOkResult(env.newId))
      && s.world.outbox == w.outbox + Duplicate(cfg.duplication,
           req.(data := Some(doc), result := [Obj(Project(doc, req.includeFields))]),
           SaveMethod, cfg.duplicateMethod)
  {
    var doc := CreateStamp(req.data.value, env.newId, env.clock(0), env.clock(1));
    var db1 := w.db.Log(InsertCall(req.collection, doc));
    RefindAfterInsert(db1, req.collection, doc, req.options, req.includeFields);
    SaveCompletes(cfg, w, req, env, methodName);
  }

  /** A find by a document just inserted into a collection where no document
      shares its `internal_id` returns that document alone, projected. */
  lemma RefindAfterInsert(db: Db, collection: string, doc: Document, options: Options, fields: seq<string>)
    requires InternalId in doc
    requires forall d :: d in db.Docs(collection) ==> !(InternalId in d && d[InternalId] == doc[InternalId])
    ensures db.Inserted(collection, doc).Query(collection, doc, options, fields) == [Obj(Project(doc, fields))]
  {
    SelectFreshKey(db.Docs(collection), doc, InternalId);
    assert |Limit([doc], options.limit)| == 1;
  }

  /** save with every call succeeding, spelled out. */
  lemma SaveCompletes(cfg: Config, w: World, req: Request, env: Env, methodName: string)
    requires Gate(cfg, env, req, methodName).None? && req.data.Some?
    requires !env.fails(0) && !env.fails(1)
    ensures var doc := CreateStamp(req.data.value, env.newId, env.clock(0), env.clock(1));
      var db2 := w.db.Log(InsertCall(req.collection, doc)).Inserted(req.collection, doc);
      var done := req.(data := Some(doc), result := db2.Query(req.collection, doc, req.options, req.includeFields));
      SaveStep(cfg, w, Some(req), env, methodName)
        == Step(Replied(StatusOkResult(env.newId)),
                World(db2.Log(FindCall(req.collection, doc, req.options, req.includeFields)),
                      w.outbox + Duplicate(cfg.duplication, done, SaveMethod, cfg.duplicateMethod)))
  {
  }

  /** update: `$set` of `data` plus `ch_time` on every document matching
      `select`; `internal_id` and `cr_time` are not added; the reply is the
      bare status and the envelope holds the re-found documents. */
  lemma UpdateMergesIntoMatches(cfg: Config, w: World, req: Request, env: Env, methodName: string)
    requires req.data.Some? && Gate(cfg, env, req, methodName).None? && !env.fails(0)
    ensures var s := UpdateStep(cfg, w, Some(req), env, methodName);
      var patch := ChangeStamp(req.data.value, env.clock(0));
      && s.world.db.Docs(req.collection) == Merge(w.db.Docs(req.collection), req.select, patch)
      && (forall c :: c != req.collection ==> s.world.db.Docs(c) == w.db.Docs(c))
      && patch.Keys == req.data.value.Keys + {ChTime}
      && s.world.db.calls[..|w.db.calls| + 1] == w.db.calls + [UpdateCall(req.collection, req.select, patch)]
      && (env.fails(1) ==> s.outcome == NoReply && s.world.outbox == w.outbox)
      && (!env.fails(1) ==>
            s.outcome == Replied(StatusOk)
            && s.world.outbox == w.outbox + Duplicate(cfg.duplication,
                 req.(data := Some(patch), result := s.world.db.Query(req.collection, req.select, req.options, req.includeFields)),
                 UpdateMethod, cfg.duplicateMethod))
  {
  }

  /** An update leaves every field the caller did not send (other than
      `ch_time`) as it was, so a stored `cr_time` survives; a field the caller
      did send, `cr_time` or `internal_id` included, overwrites the stored
      value of every matching document. */
  lemma UpdateFieldByField(cfg: Config, w: World, req: Request, env: Env, methodName: string, i: nat, k: string)
    requires req.data.Some? && Gate(cfg, env, req, methodName).None? && !env.fails(0)
    requires i < |w.db.Docs(req.collection)| && k != ChTime
    ensures var s := UpdateStep(cfg, w, Some(req), env, methodName);
      var before := w.db.Docs(req.collection)[i];
      var after := s.world.db.Docs(req.collection)[i];
      && (k in before && k !in req.data.value ==> k in after && after[k] == before[k])
      && (Matches(req.select, before) ==> after[ChTime] == Num(env.clock(0)))
      && (Matches(req.select, before) && k in req.data.value ==> after[k] == req.data.value[k])
  {
    var patch := ChangeStamp(req.data.value, env.clock(0));
    MergeEffect(w.db.Docs(req.collection), req.select, patch, i);
  }

  /** upsert with nothing matching behaves as save does after the find: same
      outcome, same store, and the same envelope except for its storage method. */
  lemma UpsertWithoutMatchIsSave(cfg: Config, w: World, req: Request, env: Env, methodName: string)
    requires Gate(cfg, env, req, methodName).None? && !env.fails(0)
    requires w.db.Query(req.collection, req.select, req.options, req.includeFields) == []
    ensures var w1 := w.(db := w.db.Log(FindCall(req.collection, req.select, req.options, req.includeFields)));
      var later := Later(env);
      var u := UpsertStep(cfg, w, Some(req), env, methodName);
      var s := SaveStep(cfg, w1, Some(req), later, methodName);
      && u.outcome == s.outcome
      && u.world.db == s.world.db
      && |u.world.outbox| == |s.world.outbox|
      && (forall i :: 0 <= i < |u.world.outbox| ==>
            u.world.outbox[i] == (if i < |w.outbox| then s.world.outbox[i]
                                  else s.world.outbox[i].(data := s.world.outbox[i].data.(methodName := UpsertMethod))))
  {
    var later := Later(env);
    assert later.fails(0) == env.fails(1) && later.fails(1) == env.fails(2);
    assert later.clock == env.clock && later.newId == env.newId;
    assert Gate(cfg, later, req, methodName).None?;
    var db1 := w.db.Log(FindCall(req.collection, req.select, req.options, req.includeFields));
    var u := UpsertStep(cfg, w, Some(req), env, methodName);
    var s := SaveStep(cfg, w.(db := db1), Some(req), later, methodName);
    if req.data.None? || env.fails(1) || env.fails(2) {
      assert u.world.outbox == w.outbox == s.world.outbox;
    } else {
      var data := CreateStamp(req.data.value, env.newId, env.clock(0), env.clock(1));
      var db3 := db1.Log(InsertCall(req.collection, data)).Inserted(req.collection, data);
      var done := req.(data := Some(data), result := db3.Query(req.collection, data, req.options, req.includeFields));
      var d := Duplicate(cfg.duplication, done, SaveMethod, cfg.duplicateMethod);
      assert u.world.outbox == w.outbox + Duplicate(cfg.duplication, done, UpsertMethod, cfg.duplicateMethod);
      assert s.world.outbox == w.outbox + d;
      DuplicateRelabel(cfg.duplication, done, SaveMethod, UpsertMethod, cfg.duplicateMethod);
    }
  }

  /** The envelopes of two storage methods differ only in the request's method. */
  lemma DuplicateRelabel(enabled: bool, req: Request, m1: string, m2: string, tag: string)
    ensures var d1 := Duplicate(enabled, req, m1, tag);
      var d2 := Duplicate(enabled, req, m2, tag);
      |d2| == |d1| &&
      forall i :: 0 <= i < |d2| ==> d2[i] == d1[i].(data := d1[i].data.(methodName := m2))
  {
  }

  /** upsert with a match (whose id can be read) behaves as update does after
      the find: same store; the reply carries the first match's id where
      update's carries the bare status; the same envelope except for its
      storage method. */
  lemma UpsertWithMatchIsUpdate(cfg: Config, w: World, req: Request, env: Env, methodName: string)
    requires Gate(cfg, env, req, methodName).None? && !env.fails(0)
    requires var found := w.db.Query(req.collection, req.select, req.options, req.includeFields);
      |found| > 0 && FirstMatchId(found).HasId?
    ensures var found := w.db.Query(req.collection, req.select, req.options, req.includeFields);
      var w1 := w.(db := w.db.Log(FindCall(req.collection, req.select, req.options, req.includeFields)));
      var later := Later(env);
      var u := UpsertStep(cfg, w, Some(req), env, methodName);
      var s := UpdateStep(cfg, w1, Some(req), later, methodName);
      && u.world.db == s.world.db
      && (s.outcome == Replied(StatusOk) <==> u.outcome == Replied(StatusOkResult(FirstMatchId(found).id)))
      && (s.outcome != Replied(StatusOk) ==> u.outcome == s.outcome)
      && |u.world.outbox| == |s.world.outbox|
      && (forall i :: 0 <= i < |u.world.outbox| ==>
            u.world.outbox[i] == (if i < |w.outbox| then s.world.outbox[i]
                                  else s.world.outbox[i].(data := s.world.outbox[i].data.(methodName := UpsertMethod))))
  {
    var later := Later(env);
    assert later.fails(0) == env.fails(1) && later.fails(1) == env.fails(2) && later.clock == env.clock;
    if req.data.Some? && !env.fails(1) && !env.fails(2) {
      var patch := ChangeStamp(req.data.value, env.clock(0));
      var db1 := w.db.Log(FindCall(req.collection, req.select, req.options, req.includeFields));
      var db2 := db1.Log(UpdateCall(req.collection, req.select, patch)).Updated(req.collection, req.select, patch);
      var done := req.(data := Some(patch), result := db2.Query(req.collection, req.select, req.options, req.includeFields));
      DuplicateRelabel(cfg.duplication, done, UpdateMethod, UpsertMethod, cfg.duplicateMethod);
    }
  }

  /** upsert, nothing matching, every call succeeding: exactly find, insert of
      the stamped `data`, find by that document; no update; the reply carries
      the fresh id. */
  lemma UpsertInsertsWhenNothingMatches(cfg: Config, w: World, req: Request, env: Env, methodName: string)
    requires Gate(cfg, env, req, methodName).None? && req.data.Some?
    requires !env.fails(0) && !env.fails(1) && !env.fails(2)
    requires Select(w.db.Docs(req.collection), req.select) == []
    ensures var u := UpsertStep(cfg, w, Some(req), env, methodName);
      var doc := CreateStamp(req.data.value, env.newId, env.clock(0), env.clock(1));
      && u.world.db.calls == w.db.calls + [FindCall(req.collection, req.select, req.options, req.includeFields),
                                           InsertCall(req.collection, doc),
                                           FindCall(req.collection, doc, req.options, req.includeFields)]
      && u.world.db.Docs(req.collection) == w.db.Docs(req.collection) + [doc]
      && u.outcome == Replied(StatusOkResult(env.newId))
  {
    var doc := CreateStamp(req.data.value, env.newId, env.clock(0), env.clock(1));
    assert w.db.Query(req.collection, req.select, req.options, req.includeFields) == [];
    var db1 := w.db.Log(FindCall(req.collection, req.select, req.options, req.includeFields));
    var db3 := db1.Log(InsertCall(req.collection, doc)).Inserted(req.collection, doc);
    assert db3.Docs(req.collection) == w.db.Docs(req.collection) + [doc];
    assert UpsertStep(cfg, w, Some(req), env, methodName).world.db
        == db3.Log(FindCall(req.collection, doc, req.options, req.includeFields));
  }

  /** upsert, something matching, every call succeeding: exactly find, one
      `$set` of `data` plus `ch_time` on `select`, find on `select`; no insert;
      the reply carries the id read from the first match. */
  lemma UpsertUpdatesWhenSomethingMatches(cfg: Config, w: World, req: Request, env: Env, methodName: string)
    requires Gate(cfg, env, req, methodName).None? && req.data.Some?
    requires !env.fails(0) && !env.fails(1) && !env.fails(2)
    requires var found := w.db.Query(req.collection, req.select, req.options, req.includeFields);
      |found| > 0 && FirstMatchId(found).HasId?
    ensures var found := w.db.Query(req.collection, req.select, req.options, req.includeFields);
      var u := UpsertStep(cfg, w, Some(req), env, methodName);
      var patch := ChangeStamp(req.data.value, env.clock(0));
      var find := FindCall(req.collection, req.select, req.options, req.includeFields);
      && u.world.db.calls == w.db.calls + [find, UpdateCall(req.collection, req.select, patch), find]
      && u.world.db.Docs(req.collection) == Merge(w.db.Docs(req.collection), req.select, patch)
      && u.outcome == Replied(StatusOkResult(FirstMatchId(found).id))
  {
  }

  /** upsert: a failing update or insert leaves the documents as they were; a
      failing re-find after it leaves the update or insert done. Either way
      nothing is written and nothing is queued. */
  lemma UpsertStoreErrorKeepsDoneEffects(cfg: Config, w: World, req: Request, env: Env, methodName: string)
    requires Gate(cfg, env, req, methodName).None? && req.data.Some? && !env.fails(0)
    requires env.fails(1) || env.fails(2)
    requires var found := w.db.Query(req.collection, req.select, req.options, req.includeFields);
      |found| > 0 ==> FirstMatchId(found).HasId?
    ensures var found := w.db.Query(req.collection, req.select, req.options, req.includeFields);
      var u := UpsertStep(cfg, w, Some(req), env, methodName);
      var docs := w.db.Docs(req.collection);
      && u.outcome == NoReply
      && u.world.outbox == w.outbox
      && (env.fails(1) ==> u.world.db.collections == w.db.collections)
      && (!env.fails(1) && |found| == 0 ==>
            u.world.db.Docs(req.collection)
              == docs + [CreateStamp(req.data.value, env.newId, env.clock(0), env.clock(1))])
      && (!env.fails(1) && |found| > 0 ==>
            u.world.db.Docs(req.collection)
              == Merge(docs, req.select, ChangeStamp(req.data.value, env.clock(0))))
  {
  }

  /** upsert's reply on the update path is the stored `internal_id` of the
      first matching document, when it is a string and the projection keeps it. */
  lemma UpsertReplyIsFirstMatchId(cfg: Config, w: World, req: Request, env: Env, methodName: string)
    requires Gate(cfg, env, req, methodName).None? && req.data.Some?
    requires !env.fails(0) && !env.fails(1) && !env.fails(2)
    requires var matches := Select(w.db.Docs(req.collection), req.select);
      |matches| > 0 && InternalId in matches[0] && matches[0][InternalId].Str?
    requires req.includeFields == [] || InternalId in req.includeFields
    ensures UpsertStep(cfg, w, Some(req), env, methodName).outcome
      == Replied(StatusOkResult(Select(w.db.Docs(req.collection), req.select)[0][InternalId].s))
  {
    var matches := Select(w.db.Docs(req.collection), req.select);
    var found := w.db.Query(req.collection, req.select, req.options, req.includeFields);
    assert found[0] == Obj(Project(matches[0], req.includeFields));
  }

  /** upsert panics on the update path when the first match's projection has
      no string `internal_id`: the stored document lacks one, or
      `include_fields` leaves it out. Only the find has happened. */
  lemma UpsertPanicsWithoutFirstMatchId(cfg: Config, w: World, req: Request, env: Env, methodName: string)
    requires Gate(cfg, env, req, methodName).None? && !env.fails(0)
    requires var matches := Select(w.db.Docs(req.collection), req.select);
      && |matches| > 0
      && (!(InternalId in matches[0] && matches[0][InternalId].Str?)
          || (req.includeFields != [] && InternalId !in req.includeFields))
    ensures var u := UpsertStep(cfg, w, Some(req), env, methodName);
      && u.outcome == Panicked
      && u.world.db.collections == w.db.collections
      && u.world.db.calls == w.db.calls + [FindCall(req.collection, req.select, req.options, req.includeFields)]
      && u.world.outbox == w.outbox
  {
    var matches := Select(w.db.Docs(req.collection), req.select);
    var found := w.db.Query(req.collection, req.select, req.options, req.includeFields);
    assert found[0] == Obj(Project(matches[0], req.includeFields));
  }

  /** remove: every document matching `select` is removed and every other one
      kept, whatever the options; the envelope's result is the snapshot taken
      before, which honours the options, so with a limit below the number of
      matches it holds fewer documents than were removed. */
  lemma RemoveDropsEveryMatch(cfg: Config, w: World, req: Request, env: Env, methodName: string)
    requires Gate(cfg, env, req, methodName).None? && !env.fails(0) && !env.fails(1)
    ensures var s := RemoveStep(cfg, w, Some(req), env, methodName);
      var before := w.db.Docs(req.collection);
      var after := s.world.db.Docs(req.collection);
      var snapshot := w.db.Query(req.collection, req.select, req.options, req.includeFields);
      && s.outcome == Replied(StatusOk)
      && (forall d :: d in after <==> d in before && !Matches(req.select, d))
      && |before| - |after| == |Select(before, req.select)|
      && s.world.db.calls == w.db.calls + [FindCall(req.collection, req.select, req.options, req.includeFields),
                                           RemoveCall(req.collection, req.select)]
      && s.world.outbox == w.outbox + Duplicate(cfg.duplication, req.(result := snapshot), RemoveMethod, cfg.duplicateMethod)
      && |snapshot| <= |before| - |after|
      && (0 < req.options.limit < |Select(before, req.select)| ==> |snapshot| < |before| - |after|)
  {
    var before := w.db.Docs(req.collection);
    forall d ensures d in Remaining(before, req.select) <==> d in before && !Matches(req.select, d) {
      RemainingMembers(before, req.select, d);
    }
    SelectRemainingCount(before, req.select);
  }

  /** remove: a failing removal leaves the documents as they were and queues
      nothing, after a snapshot that changed nothing either. */
  lemma RemoveFailureChangesNothing(cfg: Config, w: World, req: Request, env: Env, methodName: string)
    requires Gate(cfg, env, req, methodName).None? && (env.fails(0) || env.fails(1))
    ensures var s := RemoveStep(cfg, w, Some(req), env, methodName);
      s.outcome == NoReply && s.world.db.collections == w.db.collections && s.world.outbox == w.outbox
  {
  }
}
