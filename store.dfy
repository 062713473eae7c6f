/**
 * The document store the handlers call (Find, Insert, Update, Remove). Its
 * driver is not part of this model: the store is a map from collection name
 * to the collection's documents in insertion order, filters follow
 * `Documents.Matches`, and every call is appended to a call log so that the
 * store effects of a request, and their order, can be stated. Whether a call
 * fails is decided by the caller (an oracle flag); a failing call is logged
 * and has no effect on the documents.
 */
module Store {
  import opened Documents

  /** One call into the store, with the arguments it was given. */
  datatype Call =
    | FindCall(collection: string, filter: Document, options: Options, fields: seq<string>)
    | InsertCall(collection: string, doc: Document)
    | UpdateCall(collection: string, filter: Document, patch: Document)
    | RemoveCall(collection: string, filter: Document)

  /** The store's state as a value: its collections and the calls made so far. */
  datatype Db = Db(collections: map<string, seq<Document>>, calls: seq<Call>)
  {
    /** The documents of a collection; a collection never written to is empty. */
    function Docs(collection: string): seq<Document>
    {
      if collection in collections then collections[collection] else []
    }

    /** What a successful find returns: the matches in stored order, cut to
        the limit, each projected and handed back as a map. */
    function Query(collection: string, filter: Document, options: Options, fields: seq<string>): (r: seq<Value>)
      ensures |r| <= |Select(Docs(collection), filter)|
      ensures options.limit > 0 ==> |r| <= options.limit
      ensures |r| == 0 <==> Select(Docs(collection), filter) == []
      ensures forall i :: 0 <= i < |r| ==>
        r[i].Obj? && Matches(filter, Select(Docs(collection), filter)[i])
        && r[i].fields == Project(Select(Docs(collection), filter)[i], fields)
    {
      Shape(Select(Docs(collection), filter), options, fields)
    }

    /** Recording a call changes no document and appends exactly that call. */
    function Log(call: Call): (r: Db)
      ensures r.collections == collections
      ensures r.calls == calls + [call]
    {
      this.(calls := calls + [call])
    }

    /** A successful insert: the document is appended to its collection,
        which is created if needed. */
    function Inserted(collection: string, doc: Document): (r: Db)
      ensures r.Docs(collection) == Docs(collection) + [doc]
      ensures forall c :: c != collection ==> r.Docs(c) == Docs(c)
      ensures r.collections - {collection} == collections - {collection}
      ensures r.calls == calls
    {
      this.(collections := collections[collection := Docs(collection) + [doc]])
    }

    /** A successful `$set` update on every document matching `filter`. */
    function Updated(collection: string, filter: Document, patch: Document): (r: Db)
      ensures r.Docs(collection) == Merge(Docs(collection), filter, patch)
      ensures |r.Docs(collection)| == |Docs(collection)|
      ensures forall c :: c != collection ==> r.Docs(c) == Docs(c)
      ensures r.collections - {collection} == collections - {collection}
      ensures r.calls == calls
    {
      if collection in collections then
        this.(collections := collections[collection := Merge(collections[collection], filter, patch)])
      else
        this
    }

    /** A successful removal of every document matching `filter`. */
    function Removed(collection: string, filter: Document): (r: Db)
      ensures r.Docs(collection) == Remaining(Docs(collection), filter)
      ensures forall d :: d in r.Docs(collection) ==> !Matches(filter, d)
      ensures forall d :: d in r.Docs(collection) ==> d in Docs(collection)
      ensures forall c :: c != collection ==> r.Docs(c) == Docs(c)
      ensures r.collections - {collection} == collections - {collection}
      ensures r.calls == calls
    {
      if collection in collections then
        this.(collections := collections[collection := Remaining(collections[collection], filter)])
      else
        this
    }
  }

  /** The store client shared by all handlers. */
  class Store {
    var collections: map<string, seq<Document>>
    var calls: seq<Call>

    function State(): Db
      reads this
    {
      Db(collections, calls)
    }

    constructor ()
      ensures State() == Db(map[], [])
    {
      collections := map[];
      calls := [];
    }

    /** Find: the limited, projected matches in stored order, or None when the
        call fails. Reading never changes the documents. */
    method Find(collection: string, filter: Document, options: Options, fields: seq<string>, fail: bool)
      returns (r: Option<seq<Value>>)
      modifies this
      ensures State() == old(State()).Log(FindCall(collection, filter, options, fields))
      ensures r == if fail then None else Some(old(State()).Query(collection, filter, options, fields))
    {
      r := if fail then None else Some(State().Query(collection, filter, options, fields));
      calls := calls + [FindCall(collection, filter, options, fields)];
    }

    method Insert(collection: string, doc: Document, fail: bool) returns (ok: bool)
      modifies this
      ensures ok == !fail
      ensures State() == (var logged := old(State()).Log(InsertCall(collection, doc));
                          if fail then logged else logged.Inserted(collection, doc))
    {
      calls := calls + [InsertCall(collection, doc)];
      ok := !fail;
      if ok {
        collections := State().Inserted(collection, doc).collections;
      }
    }

    method Update(collection: string, filter: Document, patch: Document, fail: bool) returns (ok: bool)
      modifies this
      ensures ok == !fail
      ensures State() == (var logged := old(State()).Log(UpdateCall(collection, filter, patch));
                          if fail then logged else logged.Updated(collection, filter, patch))
    {
      calls := calls + [UpdateCall(collection, filter, patch)];
      ok := !fail;
      if ok {
        collections := State().Updated(collection, filter, patch).collections;
      }
    }

    method Remove(collection: string, filter: Document, fail: bool) returns (ok: bool)
      modifies this
      ensures ok == !fail
      ensures State() == (var logged := old(State()).Log(RemoveCall(collection, filter));
                          if fail then logged else logged.Removed(collection, filter))
    {
      calls := calls + [RemoveCall(collection, filter)];
      ok := !fail;
      if ok {
        collections := State().Removed(collection, filter).collections;
      }
    }
  }
}
