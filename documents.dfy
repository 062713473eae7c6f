/**
 * Schema-less documents as the gateway sees them: the open union of values a
 * request's `select` and `data` may hold, the filter rule the model uses for
 * the document store, and the pure operations the store applies to the
 * documents of one collection (select, `$set` merge, removal, limit and
 * projection).
 */
module Documents {

  datatype Option<T> = None | Some(value: T)

  /** A decoded JSON/BSON value. */
  datatype Value =
    | Null
    | Bool(b: bool)
    | Num(n: int)
    | Str(s: string)
    | Arr(items: seq<Value>)
    | Obj(fields: map<string, Value>)

  /** A document, a filter and a `$set` payload are all field maps. */
  type Document = map<string, Value>

  /** Query modifiers handed through to the store. Only the result limit is
      modelled; 0 means "no limit", as in MongoDB. */
  datatype Options = Options(limit: nat)

  /** The all-fields-equal filter rule: every field the filter names is present
      in the document with the same value. An empty filter matches everything. */
  predicate Matches(filter: Document, doc: Document)
  {
    forall k :: k in filter ==> k in doc && doc[k] == filter[k]
  }

  /** The documents of `docs` that match `filter`, in stored order. */
  function Select(docs: seq<Document>, filter: Document): (r: seq<Document>)
    ensures |r| <= |docs|
    ensures forall i :: 0 <= i < |r| ==> Matches(filter, r[i])
  {
    if docs == [] then []
    else
      var last := docs[|docs| - 1];
      Select(docs[..|docs| - 1], filter) + (if Matches(filter, last) then [last] else [])
  }

  /** The documents of `docs` that do not match `filter`, in stored order:
      what a removal by `filter` leaves behind. */
  function Remaining(docs: seq<Document>, filter: Document): (r: seq<Document>)
    ensures |r| <= |docs|
    ensures forall i :: 0 <= i < |r| ==> !Matches(filter, r[i])
    ensures forall d :: d in r ==> d in docs
  {
    if docs == [] then []
    else
      var last := docs[|docs| - 1];
      Remaining(docs[..|docs| - 1], filter) + (if Matches(filter, last) then [] else [last])
  }

  /** `$set`: every document matching `filter` gets the fields of `patch`
      (overwriting those it already has); the others are left alone. */
  function Merge(docs: seq<Document>, filter: Document, patch: Document): seq<Document>
  {
    seq(|docs|, i requires 0 <= i < |docs| =>
      if Matches(filter, docs[i]) then docs[i] + patch else docs[i])
  }

  /** At most `limit` leading items, or all of them when `limit` is 0. */
  function Limit<T>(items: seq<T>, limit: nat): (r: seq<T>)
    ensures r <= items
    ensures |r| == if limit == 0 || |items| <= limit then |items| else limit
  {
    if limit == 0 || |items| <= limit then items else items[..limit]
  }

  /** Projection on `include_fields`: an empty list keeps every field,
      otherwise only the listed fields the document has are kept. */
  function Project(doc: Document, fields: seq<string>): (r: Document)
    ensures forall k :: k in r <==> k in doc && (fields == [] || k in fields)
    ensures forall k :: k in r ==> r[k] == doc[k]
  {
    if fields == [] then doc else map k | k in doc && k in fields :: doc[k]
  }

  /** A find's result items: the limited, projected documents, as values. */
  function Shape(docs: seq<Document>, options: Options, fields: seq<string>): (r: seq<Value>)
    ensures |r| == |Limit(docs, options.limit)|
    ensures forall i :: 0 <= i < |r| ==> r[i] == Obj(Project(docs[i], fields))
  {
    var kept := Limit(docs, options.limit);
    seq(|kept|, i requires 0 <= i < |kept| => Obj(Project(kept[i], fields)))
  }

  /** An empty (or absent) filter matches every document. */
  lemma EmptyFilterMatchesAll(doc: Document)
    ensures Matches(map[], doc)
  {
  }

  /** A filter with a field the document lacks, or holds with another value,
      does not match it. */
  lemma MismatchedFieldFails(filter: Document, doc: Document, k: string)
    requires k in filter && (k !in doc || doc[k] != filter[k])
    ensures !Matches(filter, doc)
  {
  }

  /** A document always matches itself used as a filter. */
  lemma MatchesItself(doc: Document)
    ensures Matches(doc, doc)
  {
  }

  /** Selection keeps exactly the matching documents. */
  lemma {:induction false} SelectMembers(docs: seq<Document>, filter: Document, d: Document)
    ensures d in Select(docs, filter) <==> d in docs && Matches(filter, d)
  {
    if docs != [] {
      var init := docs[..|docs| - 1];
      SelectMembers(init, filter, d);
      assert docs == init + [docs[|docs| - 1]];
    }
  }

  /** Removal keeps exactly the non-matching documents. */
  lemma {:induction false} RemainingMembers(docs: seq<Document>, filter: Document, d: Document)
    ensures d in Remaining(docs, filter) <==> d in docs && !Matches(filter, d)
  {
    if docs != [] {
      var init := docs[..|docs| - 1];
      RemainingMembers(init, filter, d);
      assert docs == init + [docs[|docs| - 1]];
    }
  }

  /** Selection and removal by the same filter split a collection in two:
      together they hold every stored document exactly as often as before. */
  lemma {:induction false} SelectRemainingPartition(docs: seq<Document>, filter: Document)
    ensures multiset(Select(docs, filter)) + multiset(Remaining(docs, filter)) == multiset(docs)
  {
    if docs == [] {
      return;
    }
    var init, last := docs[..|docs| - 1], docs[|docs| - 1];
    SelectRemainingPartition(init, filter);
    assert docs == init + [last];
    var hit := if Matches(filter, last) then [last] else [];
    var miss := if Matches(filter, last) then [] else [last];
    assert Select(docs, filter) == Select(init, filter) + hit;
    assert Remaining(docs, filter) == Remaining(init, filter) + miss;
    assert multiset(hit) + multiset(miss) == multiset([last]);
  }

  /** Counting form of the partition: a removal by `filter` takes away exactly
      as many documents as a selection by `filter` returns. */
  lemma SelectRemainingCount(docs: seq<Document>, filter: Document)
    ensures |Select(docs, filter)| + |Remaining(docs, filter)| == |docs|
  {
    SelectRemainingPartition(docs, filter);
    var s, m := multiset(Select(docs, filter)), multiset(Remaining(docs, filter));
    assert |s + m| == |multiset(docs)|;
  }

  /** Selecting from a collection with one document appended: the new document
      joins the selection at its end when it matches. */
  lemma SelectAppend(docs: seq<Document>, filter: Document, d: Document)
    ensures Select(docs + [d], filter) == Select(docs, filter) + (if Matches(filter, d) then [d] else [])
  {
    assert (docs + [d])[..|docs|] == docs;
  }

  /** A document appended to a collection in which no document shares its
      value for `key` is the only document that matches it used as a filter. */
  lemma SelectFreshKey(docs: seq<Document>, doc: Document, key: string)
    requires key in doc
    requires forall d :: d in docs ==> !(key in d && d[key] == doc[key])
    ensures Select(docs + [doc], doc) == [doc]
  {
    SelectAppend(docs, doc, doc);
    MatchesItself(doc);
    if Select(docs, doc) != [] {
      SelectMembers(docs, doc, Select(docs, doc)[0]);
      assert false;
    }
  }

  /** `$set` semantics, document by document: the collection keeps its length;
      a matching document now carries every field of `patch` and keeps its
      other fields; a non-matching one is unchanged. */
  lemma MergeEffect(docs: seq<Document>, filter: Document, patch: Document, i: nat)
    requires i < |docs|
    ensures |Merge(docs, filter, patch)| == |docs|
    ensures Matches(filter, docs[i]) ==> Matches(patch, Merge(docs, filter, patch)[i])
    ensures Matches(filter, docs[i]) ==>
      Merge(docs, filter, patch)[i].Keys == docs[i].Keys + patch.Keys
    ensures forall k :: k in docs[i] && k !in patch ==> Merge(docs, filter, patch)[i][k] == docs[i][k]
    ensures !Matches(filter, docs[i]) ==> Merge(docs, filter, patch)[i] == docs[i]
  {
  }
}
