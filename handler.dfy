/**
 * The request handlers of the storage gateway and the path dispatcher.
 *
 * Each handler is given twice: as a pure step function (`GetStep`, ...) that
 * maps the state before the request (store and outbound duplication queue) to
 * the outcome and the state after it, and as a method of `Server` that works
 * step by step on the shared store object and the queue, as the handler does,
 * and is proved to end in exactly the state its step function gives. The
 * properties of the handlers are lemmas about the step functions (module
 * HandlerProperties).
 *
 * Store calls are numbered per request from 0 (`env.fails(k)` decides whether
 * the k-th fails), and so are clock readings (`env.clock(k)`).
 */
module Handler {
  import opened Documents
  import opened Store
  import opened Requests

  /** Everything a request can change: the store and the duplication queue. */
  datatype World = World(db: Db, outbox: seq<Envelope>)

  datatype Step = Step(outcome: Outcome, world: World)

  /** What a handler may do to the world: append at most `maxCalls` calls to
      the store's log and at most one envelope to the queue, and change the
      documents of no collection but the one the request names. */
  predicate Confined(w: World, after: World, body: Option<Request>, maxCalls: nat)
  {
    && w.db.calls <= after.db.calls && |after.db.calls| <= |w.db.calls| + maxCalls
    && w.outbox <= after.outbox && |after.outbox| <= |w.outbox| + 1
    && after.db.collections - Named(body) == w.db.collections - Named(body)
  }

  /** The collection a request names, if it decoded. */
  function Named(body: Option<Request>): set<string>
  {
    if body.None? then {} else {body.value.collection}
  }

  /** The five operations reachable by path. */
  datatype Operation = GetOp | SaveOp | UpdateOp | UpsertOp | RemoveOp
  {
    /** The method name the dispatcher passes to the handler. */
    function Name(): string
    {
      match this
      case GetOp => "get"
      case SaveOp => "save"
      case UpdateOp => "update"
      case UpsertOp => "upsert"
      case RemoveOp => "remove"
    }
  }

  /** The operation a request path selects, if any. */
  function Route(path: string): (r: Option<Operation>)
    ensures forall op: Operation :: r == Some(op) <==> path == "/" + op.Name()
  {
    assert "/update"[3] != "/upsert"[3];
    if path == "/get" then Some(GetOp)
    else if path == "/save" then Some(SaveOp)
    else if path == "/update" then Some(UpdateOp)
    else if path == "/upsert" then Some(UpsertOp)
    else if path == "/remove" then Some(RemoveOp)
    else None
  }

  /** One find; get never changes a document. */
  function GetStep(cfg: Config, w: World, body: Option<Request>, env: Env, methodName: string): (r: Step)
    ensures Confined(w, r.world, body, 1)
    ensures r.world.db.collections == w.db.collections
  {
    if body.None? then Step(NoReply, w)
    else
      var req := body.value;
      var denial := Gate(cfg, env, req, methodName);
      if denial.Some? then Step(Replied(Denied(denial.value)), w)
      else
        var db := w.db.Log(FindCall(req.collection, req.select, req.options, req.includeFields));
        if env.fails(0) then Step(NoReply, w.(db := db))
        else
          var result := w.db.Query(req.collection, req.select, req.options, req.includeFields);
          var done := req.(result := result);
          Step(Replied(Listing(result)),
               World(db, w.outbox + Duplicate(cfg.duplication, done, GetMethod, cfg.duplicateMethod)))
  }

  /** Insert, then find. */
  function SaveStep(cfg: Config, w: World, body: Option<Request>, env: Env, methodName: string): (r: Step)
    ensures Confined(w, r.world, body, 2)
  {
    if body.None? then Step(NoReply, w)
    else
      var req := body.value;
      var denial := Gate(cfg, env, req, methodName);
      if denial.Some? then Step(Replied(Denied(denial.value)), w)
      else if req.data.None? then Step(Panicked, w)
      else
        var id := env.newId;
        var data := CreateStamp(req.data.value, id, env.clock(0), env.clock(1));
        var db1 := w.db.Log(InsertCall(req.collection, data));
        if env.fails(0) then Step(NoReply, w.(db := db1))
        else
          var db2 := db1.Inserted(req.collection, data);
          var db3 := db2.Log(FindCall(req.collection, data, req.options, req.includeFields));
          if env.fails(1) then Step(NoReply, w.(db := db3))
          else
            var result := db2.Query(req.collection, data, req.options, req.includeFields);
            var done := req.(data := Some(data), result := result);
            Step(Replied(StatusOkResult(id)),
                 World(db3, w.outbox + Duplicate(cfg.duplication, done, SaveMethod, cfg.duplicateMethod)))
  }

  /** Update, then find; update neither adds nor removes a document. `ch_time`
      is stamped before the permission gate, so a nil `data` panics even when
      the gate would refuse. */
  function UpdateStep(cfg: Config, w: World, body: Option<Request>, env: Env, methodName: string): (r: Step)
    ensures Confined(w, r.world, body, 2)
    ensures body.Some? ==> var c := body.value.collection;
      |r.world.db.Docs(c)| == |w.db.Docs(c)|
  {
    if body.None? then Step(NoReply, w)
    else
      var req := body.value;
      if req.data.None? then Step(Panicked, w)
      else
        var data := ChangeStamp(req.data.value, env.clock(0));
        var denial := Gate(cfg, env, req, methodName);
        if denial.Some? then Step(Replied(Denied(denial.value)), w)
        else
          var db1 := w.db.Log(UpdateCall(req.collection, req.select, data));
          if env.fails(0) then Step(NoReply, w.(db := db1))
          else
            var db2 := db1.Updated(req.collection, req.select, data);
            var db3 := db2.Log(FindCall(req.collection, req.select, req.options, req.includeFields));
            if env.fails(1) then Step(NoReply, w.(db := db3))
            else
              var result := db2.Query(req.collection, req.select, req.options, req.includeFields);
              var done := req.(data := Some(data), result := result);
              Step(Replied(StatusOk),
                   World(db3, w.outbox + Duplicate(cfg.duplication, done, UpdateMethod, cfg.duplicateMethod)))
  }

  /** Find on `select`, then update the matches or insert a new document,
      then find. */
  function UpsertStep(cfg: Config, w: World, body: Option<Request>, env: Env, methodName: string): (r: Step)
    ensures Confined(w, r.world, body, 3)
  {
    if body.None? then Step(NoReply, w)
    else
      var req := body.value;
      var denial := Gate(cfg, env, req, methodName);
      if denial.Some? then Step(Replied(Denied(denial.value)), w)
      else
        var db1 := w.db.Log(FindCall(req.collection, req.select, req.options, req.includeFields));
        if env.fails(0) then Step(NoReply, w.(db := db1))
        else
          var found := w.db.Query(req.collection, req.select, req.options, req.includeFields);
          if |found| > 0 then
            var lookup := FirstMatchId(found);
            if lookup.AssertionPanics? || req.data.None? then Step(Panicked, w.(db := db1))
            else
              var data := ChangeStamp(req.data.value, env.clock(0));
              var db2 := db1.Log(UpdateCall(req.collection, req.select, data));
              if env.fails(1) then Step(NoReply, w.(db := db2))
              else
                var db3 := db2.Updated(req.collection, req.select, data);
                var db4 := db3.Log(FindCall(req.collection, req.select, req.options, req.includeFields));
                if env.fails(2) then Step(NoReply, w.(db := db4))
                else
                  var result := db3.Query(req.collection, req.select, req.options, req.includeFields);
                  var done := req.(data := Some(data), result := result);
                  Step(Replied(StatusOkResult(lookup.id)),
                       World(db4, w.outbox + Duplicate(cfg.duplication, done, UpsertMethod, cfg.duplicateMethod)))
          else if req.data.None? then Step(Panicked, w.(db := db1))
          else
            var id := env.newId;
            var data := CreateStamp(req.data.value, id, env.clock(0), env.clock(1));
            var db2 := db1.Log(InsertCall(req.collection, data));
            if env.fails(1) then Step(NoReply, w.(db := db2))
            else
              var db3 := db2.Inserted(req.collection, data);
              var db4 := db3.Log(FindCall(req.collection, data, req.options, req.includeFields));
              if env.fails(2) then Step(NoReply, w.(db := db4))
              else
                var result := db3.Query(req.collection, data, req.options, req.includeFields);
                var done := req.(data := Some(data), result := result);
                Step(Replied(StatusOkResult(id)),
                     World(db4, w.outbox + Duplicate(cfg.duplication, done, UpsertMethod, cfg.duplicateMethod)))
  }

  /** Snapshot the matches (honouring options), then remove by `select` alone;
      remove never adds a document. */
  function RemoveStep(cfg: Config, w: World, body: Option<Request>, env: Env, methodName: string): (r: Step)
    ensures Confined(w, r.world, body, 2)
    ensures body.Some? ==> var c := body.value.collection;
      |r.world.db.Docs(c)| <= |w.db.Docs(c)|
      && forall d :: d in r.world.db.Docs(c) ==> d in w.db.Docs(c)
  {
    if body.None? then Step(NoReply, w)
    else
      var req := body.value;
      var denial := Gate(cfg, env, req, methodName);
      if denial.Some? then Step(Replied(Denied(denial.value)), w)
      else
        var db1 := w.db.Log(FindCall(req.collection, req.select, req.options, req.includeFields));
        if env.fails(0) then Step(NoReply, w.(db := db1))
        else
          var snapshot := w.db.Query(req.collection, req.select, req.options, req.includeFields);
          var db2 := db1.Log(RemoveCall(req.collection, req.select));
          if env.fails(1) then Step(NoReply, w.(db := db2))
          else
            var db3 := db2.Removed(req.collection, req.select);
            var done := req.(result := snapshot);
            Step(Replied(StatusOk),
                 World(db3, w.outbox + Duplicate(cfg.duplication, done, RemoveMethod, cfg.duplicateMethod)))
  }

  /** The handler an operation runs, given the method name it is called with.
      Whatever it is, it makes at most three store calls, queues at most one
      envelope and touches no other collection than the request's. */
  function Run(op: Operation, cfg: Config, w: World, body: Option<Request>, env: Env, methodName: string): (r: Step)
    ensures Confined(w, r.world, body, 3)
  {
    match op
    case GetOp => GetStep(cfg, w, body, env, methodName)
    case SaveOp => SaveStep(cfg, w, body, env, methodName)
    case UpdateOp => UpdateStep(cfg, w, body, env, methodName)
    case UpsertOp => UpsertStep(cfg, w, body, env, methodName)
    case RemoveOp => RemoveStep(cfg, w, body, env, methodName)
  }

  /** Dispatch: each of the five paths runs its own handler with its own
      method name; any other path does nothing at all. */
  function Serve(cfg: Config, w: World, path: string, body: Option<Request>, env: Env): (s: Step)
    ensures forall op: Operation :: path == "/" + op.Name() ==> s == Run(op, cfg, w, body, env, op.Name())
    ensures (forall op: Operation :: path != "/" + op.Name()) ==> s == Step(NoReply, w)
  {
    match Route(path)
    case None => Step(NoReply, w)
    case Some(op) => Run(op, cfg, w, body, env, op.Name())
  }

  /** The server: its configuration, the store client and the outbound
      duplication queue. */
  class Server {
    const config: Config
    const store: Store
    var outbox: seq<Envelope>

    function Snapshot(): World
      reads this, store
    {
      World(store.State(), outbox)
    }

    constructor (config: Config, store: Store)
      ensures this.config == config && this.store == store && outbox == []
    {
      this.config := config;
      this.store := store;
      outbox := [];
    }

    method HandleServerRequest(path: string, body: Option<Request>, env: Env) returns (outcome: Outcome)
      modifies this, store
      ensures Step(outcome, Snapshot()) == Serve(config, old(Snapshot()), path, body, env)
    {
      if path == "/get" {
        outcome := Get(body, env, "get");
      } else if path == "/save" {
        outcome := Save(body, env, "save");
      } else if path == "/update" {
        outcome := Update(body, env, "update");
      } else if path == "/upsert" {
        outcome := Upsert(body, env, "upsert");
      } else if path == "/remove" {
        outcome := Remove(body, env, "remove");
      } else {
        outcome := NoReply;
      }
    }

    method Get(body: Option<Request>, env: Env, methodName: string) returns (outcome: Outcome)
      modifies this, store
      ensures Step(outcome, Snapshot()) == GetStep(config, old(Snapshot()), body, env, methodName)
    {
      if body.None? {
        return NoReply;
      }
      var request := body.value;
      if config.usePermissionAuth {
        var err := env.permission(request.collection, methodName, request.select);
        if err.Some? {
          return Replied(Denied(err.value));
        }
      }
      var result := store.Find(request.collection, request.select, request.options, request.includeFields, env.fails(0));
      if result.None? {
        return NoReply;
      }
      request := request.(result := result.value);
      DuplicateRequest(request, GetMethod, config.duplicateMethod);
      return Replied(Listing(result.value));
    }

    method Save(body: Option<Request>, env: Env, methodName: string) returns (outcome: Outcome)
      modifies this, store
      ensures Step(outcome, Snapshot()) == SaveStep(config, old(Snapshot()), body, env, methodName)
    {
      if body.None? {
        return NoReply;
      }
      var request := body.value;
      if config.usePermissionAuth {
        var err := env.permission(request.collection, methodName, request.select);
        if err.Some? {
          return Replied(Denied(err.value));
        }
      }
      if request.data.None? {
        return Panicked;  // assignment into a nil map
      }
      var id := env.newId;
      var data := request.data.value;
      data := data[InternalId := Str(id)];
      data := data[CrTime := Num(env.clock(0))];
      data := data[ChTime := Num(env.clock(1))];
      request := request.(data := Some(data));
      var ok := store.Insert(request.collection, data, env.fails(0));
      if !ok {
        return NoReply;
      }
      var result := store.Find(request.collection, data, request.options, request.includeFields, env.fails(1));
      if result.None? {
        return NoReply;
      }
      request := request.(result := result.value);
      DuplicateRequest(request, SaveMethod, config.duplicateMethod);
      return Replied(StatusOkResult(id));
    }

    method Update(body: Option<Request>, env: Env, methodName: string) returns (outcome: Outcome)
      modifies this, store
      ensures Step(outcome, Snapshot()) == UpdateStep(config, old(Snapshot()), body, env, methodName)
    {
      if body.None? {
        return NoReply;
      }
      var request := body.value;
      if request.data.None? {
        return Panicked;  // assignment into a nil map
      }
      var data := request.data.value[ChTime := Num(env.clock(0))];
      request := request.(data := Some(data));
      if config.usePermissionAuth {
        var err := env.permission(request.collection, methodName, request.select);
        if err.Some? {
          return Replied(Denied(err.value));
        }
      }
      var ok := store.Update(request.collection, request.select, data, env.fails(0));
      if !ok {
        return NoReply;
      }
      var result := store.Find(request.collection, request.select, request.options, request.includeFields, env.fails(1));
      if result.None? {
        return NoReply;
      }
      request := request.(result := result.value);
      DuplicateRequest(request, UpdateMethod, config.duplicateMethod);
      return Replied(StatusOk);
    }

    method Upsert(body: Option<Request>, env: Env, methodName: string) returns (outcome: Outcome)
      modifies this, store
      ensures Step(outcome, Snapshot()) == UpsertStep(config, old(Snapshot()), body, env, methodName)
    {
      if body.None? {
        return NoReply;
      }
      var request := body.value;
      if config.usePermissionAuth {
        var err := env.permission(request.collection, methodName, request.select);
        if err.Some? {
          return Replied(Denied(err.value));
        }
      }
      var found := store.Find(request.collection, request.select, request.options, request.includeFields, env.fails(0));
      if found.None? {
        return NoReply;
      }
      var id: string;
      var lastResult: Option<seq<Value>>;
      if |found.value| > 0 {
        // update
        match found.value[0] {
          case Obj(item) =>
            if !(InternalId in item && item[InternalId].Str?) {
              return Panicked;  // failed single-value type assertion
            }
            id := item[InternalId].s;
          case _ =>
            id := "";
        }
        if request.data.None? {
          return Panicked;  // assignment into a nil map
        }
        var data := request.data.value[ChTime := Num(env.clock(0))];
        assert data == ChangeStamp(request.data.value, env.clock(0));
        request := request.(data := Some(data));
        var ok := store.Update(request.collection, request.select, data, env.fails(1));
        if !ok {
          return NoReply;
        }
        lastResult := store.Find(request.collection, request.select, request.options, request.includeFields, env.fails(2));
        if lastResult.None? {
          return NoReply;
        }
      } else {
        // insert
        id := env.newId;
        if request.data.None? {
          return Panicked;  // assignment into a nil map
        }
        var data := request.data.value;
        data := data[InternalId := Str(id)];
        data := data[CrTime := Num(env.clock(0))];
        data := data[ChTime := Num(env.clock(1))];
        assert data == CreateStamp(request.data.value, id, env.clock(0), env.clock(1));
        request := request.(data := Some(data));
        var ok := store.Insert(request.collection, data, env.fails(1));
        if !ok {
          return NoReply;
        }
        lastResult := store.Find(request.collection, data, request.options, request.includeFields, env.fails(2));
        if lastResult.None? {
          return NoReply;
        }
      }
      request := request.(result := lastResult.value);
      DuplicateRequest(request, UpsertMethod, config.duplicateMethod);
      return Replied(StatusOkResult(id));
    }

    method Remove(body: Option<Request>, env: Env, methodName: string) returns (outcome: Outcome)
      modifies this, store
      ensures Step(outcome, Snapshot()) == RemoveStep(config, old(Snapshot()), body, env, methodName)
    {
      if body.None? {
        return NoReply;
      }
      var request := body.value;
      if config.usePermissionAuth {
        var err := env.permission(request.collection, methodName, request.select);
        if err.Some? {
          return Replied(Denied(err.value));
        }
      }
      var result := store.Find(request.collection, request.select, request.options, request.includeFields, env.fails(0));
      if result.None? {
        return NoReply;
      }
      var ok := store.Remove(request.collection, request.select, env.fails(1));
      if !ok {
        return NoReply;
      }
      request := request.(result := result.value);
      DuplicateRequest(request, RemoveMethod, config.duplicateMethod);
      return Replied(StatusOk);
    }

    /** Queue the duplication envelope, when duplication is on. The send is
        modelled as a synchronous append. */
    method DuplicateRequest(request: Request, storageMethod: string, handlerMethod: string)
      modifies this
      ensures outbox == old(outbox) + Duplicate(config.duplication, request, storageMethod, handlerMethod)
    {
      if config.duplication {
        var duplicated := request.(methodName := storageMethod);
        outbox := outbox + [Envelope(duplicated, handlerMethod)];
      }
    }
  }
}
