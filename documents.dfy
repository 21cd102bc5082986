/**
 * The documents of a thing's two collections, and the collection operations
 * the protocol performs on them, as functions on the sequence of documents a
 * collection holds (in the store's natural order).
 */
module Documents {
  import opened Wrappers
  import opened JsValues
  import opened ObjectIds

  /**
   * A document of the queries collection: one command. `query` names the
   * operation, `arguments` are passed to its handler, `waiting` is true until the
   * device writes `result`. The `lastModified` timestamp is not modelled.
   */
  datatype CommandDoc = CommandDoc(id: ObjectId, query: Value, arguments: seq<Value>, waiting: Value, result: Value)

  /** A document of the status collection: the current `value` of one `property`. */
  datatype StatusDoc = StatusDoc(id: ObjectId, property: Value, value: Value)

  function CommandIds(docs: seq<CommandDoc>): set<ObjectId> {
    set d | d in docs :: d.id
  }

  function StatusIds(docs: seq<StatusDoc>): set<ObjectId> {
    set d | d in docs :: d.id
  }

  // ---------------------------------------------------------------- commands

  /** `findOne({ _id : id })` on the queries collection: the first document with that id. */
  function FindCommand(docs: seq<CommandDoc>, id: ObjectId): (r: Option<CommandDoc>)
    ensures r.None? <==> id !in CommandIds(docs)
    ensures r.Some? ==> r.value in docs && r.value.id == id
  {
    if docs == [] then None
    else if docs[0].id == id then Some(docs[0])
    else
      assert CommandIds(docs) == {docs[0].id} + CommandIds(docs[1..]) by {
        assert docs == [docs[0]] + docs[1..];
      }
      FindCommand(docs[1..], id)
  }

  /** `insert(doc)`: appended, unless its `_id` is taken (a duplicate-key error, `None`). */
  function InsertCommand(docs: seq<CommandDoc>, doc: CommandDoc): (r: Option<seq<CommandDoc>>)
    ensures r.Some? <==> doc.id !in CommandIds(docs)
    ensures r.Some? ==> r.value == docs + [doc] && CommandIds(r.value) == CommandIds(docs) + {doc.id}
    ensures r.Some? ==> FindCommand(r.value, doc.id) == Some(doc)
  {
    if doc.id in CommandIds(docs) then None
    else
      var r := docs + [doc];
      assert CommandIds(r) == CommandIds(docs) + {doc.id} by {
        forall x | x in CommandIds(r) ensures x in CommandIds(docs) + {doc.id} {
          var d :| d in r && d.id == x;
          if d != doc { assert d in docs; }
        }
      }
      FindAfterAppend(docs, doc);
      Some(r)
  }

  lemma {:induction false} FindAfterAppend(docs: seq<CommandDoc>, doc: CommandDoc)
    requires doc.id !in CommandIds(docs)
    ensures FindCommand(docs + [doc], doc.id) == Some(doc)
  {
    if docs != [] {
      assert (docs + [doc])[1..] == docs[1..] + [doc];
      assert docs[0] in docs;
      assert CommandIds(docs[1..]) <= CommandIds(docs) by {
        forall x | x in CommandIds(docs[1..]) ensures x in CommandIds(docs) {
          var d :| d in docs[1..] && d.id == x;
          assert d in docs;
        }
      }
      FindAfterAppend(docs[1..], doc);
    }
  }

  /** A command document after its handler finished with `result`. */
  function Completed(doc: CommandDoc, result: Value): (d: CommandDoc)
    ensures d.id == doc.id && d.query == doc.query && d.arguments == doc.arguments
    ensures d.result == result && !Truthy(d.waiting)
  {
    doc.(result := result, waiting := Bool(false))
  }

  /**
   * `updateOne({ _id : id }, { $set : { result, waiting : false } })`: the first
   * document with that id is completed, every other document is left as it was.
   */
  function SetResult(docs: seq<CommandDoc>, id: ObjectId, result: Value): (r: seq<CommandDoc>)
    ensures |r| == |docs| && CommandIds(r) == CommandIds(docs)
    ensures forall i :: 0 <= i < |docs| ==> r[i] == docs[i] || (docs[i].id == id && r[i] == Completed(docs[i], result))
    ensures FindCommand(r, id) == match FindCommand(docs, id)
                                   case None => None
                                   case Some(d) => Some(Completed(d, result))
  {
    if docs == [] then []
    else
      assert docs == [docs[0]] + docs[1..];
      assert CommandIds(docs) == {docs[0].id} + CommandIds(docs[1..]);
      if docs[0].id == id then
        var r := [Completed(docs[0], result)] + docs[1..];
        assert r[1..] == docs[1..];
        assert CommandIds(r) == {docs[0].id} + CommandIds(docs[1..]) by { assert r == [r[0]] + r[1..]; }
        r
      else
        var rest := SetResult(docs[1..], id, result);
        var r := [docs[0]] + rest;
        assert r[1..] == rest;
        assert CommandIds(r) == {docs[0].id} + CommandIds(rest);
        r
  }

  // ------------------------------------------------------------------ status

  /** How many documents of the status collection have `property == p`. */
  function CountProperty(docs: seq<StatusDoc>, p: Value): nat {
    if docs == [] then 0
    else (if docs[0].property == p then 1 else 0) + CountProperty(docs[1..], p)
  }

  /** `findOne({ property : p })`: the first document for that property. */
  function FindStatus(docs: seq<StatusDoc>, p: Value): (r: Option<StatusDoc>)
    ensures r.None? <==> CountProperty(docs, p) == 0
    ensures r.Some? ==> r.value in docs && r.value.property == p
    ensures r.Some? ==> exists i :: 0 <= i < |docs| && docs[i] == r.value && forall j :: 0 <= j < i ==> docs[j].property != p
  {
    if docs == [] then None
    else if docs[0].property == p then Some(docs[0])
    else
      var r := FindStatus(docs[1..], p);
      assert r.Some? ==> exists i :: 0 <= i < |docs| && docs[i] == r.value && forall j :: 0 <= j < i ==> docs[j].property != p by {
        if r.Some? {
          var i :| 0 <= i < |docs| - 1 && docs[1..][i] == r.value && forall j :: 0 <= j < i ==> docs[1..][j].property != p;
          assert docs[i + 1] == r.value && forall j :: 0 <= j < i + 1 ==> docs[j].property != p;
        }
      }
      r
  }

  /** `findOne({ _id : id })` on the status collection. */
  function FindStatusById(docs: seq<StatusDoc>, id: ObjectId): (r: Option<StatusDoc>)
    ensures r.None? <==> id !in StatusIds(docs)
    ensures r.Some? ==> r.value in docs && r.value.id == id
  {
    if docs == [] then None
    else if docs[0].id == id then Some(docs[0])
    else
      assert StatusIds(docs) == {docs[0].id} + StatusIds(docs[1..]) by {
        assert docs == [docs[0]] + docs[1..];
      }
      FindStatusById(docs[1..], id)
  }

  /**
   * `updateMany({ property : p }, { $set : { value : v } })`: exactly the
   * documents for `p` take the value `v`, each in its place.
   */
  function SetValue(docs: seq<StatusDoc>, p: Value, v: Value): (r: seq<StatusDoc>)
    ensures |r| == |docs|
    ensures forall i :: 0 <= i < |docs| ==> r[i] == if docs[i].property == p then docs[i].(value := v) else docs[i]
  {
    if docs == [] then []
    else [if docs[0].property == p then docs[0].(value := v) else docs[0]] + SetValue(docs[1..], p, v)
  }

  /** `insert(doc)` on the status collection; `None` is a duplicate-key error. */
  function InsertStatus(docs: seq<StatusDoc>, doc: StatusDoc): (r: Option<seq<StatusDoc>>)
    ensures r.Some? <==> doc.id !in StatusIds(docs)
    ensures r.Some? ==> r.value == docs + [doc] && StatusIds(r.value) == StatusIds(docs) + {doc.id}
  {
    if doc.id in StatusIds(docs) then None else Some(docs + [doc])
  }

  /**
   * The write `updateStatus(p, v)` makes after its `findOne`: every document for
   * `p` takes the value `v` when there is one, otherwise `{property : p, value : v}`
   * is inserted under the id the store assigns.
   */
  function Upsert(docs: seq<StatusDoc>, p: Value, v: Value, newId: ObjectId): (r: Option<seq<StatusDoc>>)
    ensures r.None? <==> CountProperty(docs, p) == 0 && newId in StatusIds(docs)
  {
    if FindStatus(docs, p).Some? then Some(SetValue(docs, p, v))
    else InsertStatus(docs, StatusDoc(newId, p, v))
  }

  /** `updateMany` never changes how many documents a property has. */
  lemma {:induction false} SetValueKeepsCounts(docs: seq<StatusDoc>, p: Value, v: Value, q: Value)
    ensures CountProperty(SetValue(docs, p, v), q) == CountProperty(docs, q)
  {
    if docs != [] {
      var r := SetValue(docs, p, v);
      assert r[1..] == SetValue(docs[1..], p, v);
      SetValueKeepsCounts(docs[1..], p, v, q);
    }
  }

  /** After `updateMany`, the first document for `p` is the old first one with value `v`. */
  lemma {:induction false} SetValueFound(docs: seq<StatusDoc>, p: Value, v: Value)
    requires FindStatus(docs, p).Some?
    ensures FindStatus(SetValue(docs, p, v), p) == Some(FindStatus(docs, p).value.(value := v))
  {
    var r := SetValue(docs, p, v);
    assert r[1..] == SetValue(docs[1..], p, v);
    if docs[0].property != p {
      SetValueFound(docs[1..], p, v);
    }
  }

  lemma {:induction false} CountAppend(docs: seq<StatusDoc>, d: StatusDoc, q: Value)
    ensures CountProperty(docs + [d], q) == CountProperty(docs, q) + (if d.property == q then 1 else 0)
  {
    if docs != [] {
      assert (docs + [d])[1..] == docs[1..] + [d];
      CountAppend(docs[1..], d, q);
    }
  }

  lemma {:induction false} FindStatusAppend(docs: seq<StatusDoc>, d: StatusDoc)
    requires CountProperty(docs, d.property) == 0
    ensures FindStatus(docs + [d], d.property) == Some(d)
  {
    if docs != [] {
      assert (docs + [d])[1..] == docs[1..] + [d];
      FindStatusAppend(docs[1..], d);
    }
  }

  /**
   * No document for `p`: exactly one document `{property : p, value : v}` is
   * added at the end; no other property gains or loses a document.
   */
  lemma UpsertInsertsWhenAbsent(docs: seq<StatusDoc>, p: Value, v: Value, newId: ObjectId)
    requires CountProperty(docs, p) == 0 && newId !in StatusIds(docs)
    ensures Upsert(docs, p, v, newId) == Some(docs + [StatusDoc(newId, p, v)])
    ensures CountProperty(docs + [StatusDoc(newId, p, v)], p) == 1
    ensures forall q :: q != p ==> CountProperty(docs + [StatusDoc(newId, p, v)], q) == CountProperty(docs, q)
  {
    forall q {
      CountAppend(docs, StatusDoc(newId, p, v), q);
    }
  }

  /**
   * Some document for `p`: every document for `p` takes value `v`, keeps its id,
   * and the number of documents for each property is unchanged; documents for
   * other properties are untouched.
   */
  lemma UpsertUpdatesWhenPresent(docs: seq<StatusDoc>, p: Value, v: Value, newId: ObjectId)
    requires CountProperty(docs, p) > 0
    ensures Upsert(docs, p, v, newId).Some?
    ensures var r := Upsert(docs, p, v, newId).value;
      && |r| == |docs|
      && (forall i :: 0 <= i < |docs| && docs[i].property == p ==> r[i] == docs[i].(value := v))
      && (forall i :: 0 <= i < |docs| && docs[i].property != p ==> r[i] == docs[i])
      && (forall q :: CountProperty(r, q) == CountProperty(docs, q))
  {
    forall q {
      SetValueKeepsCounts(docs, p, v, q);
    }
  }

  /** Round trip: after a successful upsert, a `findOne` for `p` sees value `v`. */
  lemma UpsertThenFind(docs: seq<StatusDoc>, p: Value, v: Value, newId: ObjectId)
    requires Upsert(docs, p, v, newId).Some?
    ensures FindStatus(Upsert(docs, p, v, newId).value, p).Some?
    ensures FindStatus(Upsert(docs, p, v, newId).value, p).value.value == v
  {
    if FindStatus(docs, p).Some? {
      SetValueFound(docs, p, v);
    } else {
      FindStatusAppend(docs, StatusDoc(newId, p, v));
    }
  }

  /**
   * Used alone, the upsert keeps the at-most-one-document-per-property
   * invariant, and after it the property has exactly one document.
   */
  lemma UpsertKeepsPropertiesUnique(docs: seq<StatusDoc>, p: Value, v: Value, newId: ObjectId)
    requires Upsert(docs, p, v, newId).Some?
    requires forall q :: CountProperty(docs, q) <= 1
    ensures forall q :: CountProperty(Upsert(docs, p, v, newId).value, q) <= 1
    ensures CountProperty(Upsert(docs, p, v, newId).value, p) == 1
  {
    if CountProperty(docs, p) > 0 {
      UpsertUpdatesWhenPresent(docs, p, v, newId);
    } else {
      UpsertInsertsWhenAbsent(docs, p, v, newId);
    }
  }
}
