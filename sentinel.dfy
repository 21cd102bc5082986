/**
 * The controller side: a sentinel watches one thing's two collections, issues
 * commands to it, reads its status and fans status changes out to subscribers,
 * all through its own event emitter.
 */
module Sentinels {
  import opened Wrappers
  import opened JsValues
  import opened ObjectIds
  import opened Channels
  import opened Documents
  import opened Store
  import opened Callbacks
  import opened Events
  import opened Configuration
  import opened NodeThing

  /** The three kinds of function a sentinel registers on its emitter. */
  datatype Listener =
    | QueryReply(callback: CallbackId)   // `query`'s listener: calls `callback(null, result)`
    | Subscriber(callback: CallbackId)   // `subscribe(property, callback)`: `callback` itself
    | Wildcard(callback: CallbackId)     // `subscribe(callback)`: calls `callback(item.property, item.value)`

  /** What a channel fires with: a result or value, or a whole status document. */
  datatype Signal = ValueSignal(v: Value) | ItemSignal(item: StatusDoc)

  /** Only the wildcard listeners take whole documents. */
  predicate Matches(l: Listener, s: Signal) {
    l.Wildcard? <==> s.ItemSignal?
  }

  /** The invocation a listener makes when its channel fires with `s`. */
  function Deliver(l: Listener, s: Signal): (c: Call)
    requires Matches(l, s)
    ensures c.callback == l.callback
  {
    match l
    case QueryReply(cb) => Call(cb, [Val(Null), Val(s.v)])
    case Subscriber(cb) => Call(cb, [Val(s.v)])
    case Wildcard(cb) => Call(cb, [Val(s.item.property), Val(s.item.value)])
  }

  function Deliveries(ls: seq<Listener>, s: Signal): (r: seq<Call>)
    requires forall i :: 0 <= i < |ls| ==> Matches(ls[i], s)
    ensures |r| == |ls| && forall i :: 0 <= i < |ls| ==> r[i] == Deliver(ls[i], s)
  {
    seq(|ls|, i requires 0 <= i < |ls| => Deliver(ls[i], s))
  }

  /** One `emit(channel, signal)`. */
  type Route = (string, Signal)

  /** Whole documents go to the wildcard channel and only there. */
  predicate WellRouted(route: Route) {
    route.0 == WILDCARD <==> route.1.ItemSignal?
  }

  /**
   * Where each kind of listener is registered: `query`'s on a `queries_`
   * channel, a property subscriber on a `status_` channel, a wildcard
   * subscriber on the wildcard channel.
   */
  predicate Fits(ch: string, l: Listener) {
    match l
    case QueryReply(_) => |ch| >= |QUERIES_PREFIX| && ch[..|QUERIES_PREFIX|] == QUERIES_PREFIX
    case Subscriber(_) => |ch| >= |STATUS_PREFIX| && ch[..|STATUS_PREFIX|] == STATUS_PREFIX
    case Wildcard(_) => ch == WILDCARD
  }

  /** Every listener sits on a channel of its own kind. */
  ghost predicate Disciplined(channels: map<string, seq<Listener>>) {
    forall ch, i :: ch in channels && 0 <= i < |channels[ch]| ==> Fits(ch, channels[ch][i])
  }

  /**
   * The queries hooks' filter: a document that is no longer waiting announces
   * its result on its own channel; a waiting one announces nothing.
   */
  function CommandRoutes(doc: CommandDoc): (r: seq<Route>)
    ensures forall i :: 0 <= i < |r| ==> WellRouted(r[i])
  {
    if Truthy(doc.waiting) then [] else [(QueriesChannel(doc.id), ValueSignal(doc.result))]
  }

  /** The status hooks: the value on the document's own channel, then the document on the wildcard channel. */
  function StatusRoutes(item: StatusDoc): (r: seq<Route>)
    ensures forall i :: 0 <= i < |r| ==> WellRouted(r[i])
  {
    ChannelsDistinct(item.id, item.id);
    [(StatusChannel(item.id), ValueSignal(item.value)), (WILDCARD, ItemSignal(item))]
  }

  /** On a disciplined emitter, every listener of a well-routed channel takes that route's signal. */
  lemma ListenersMatch(e: Emitter<Listener>, route: Route)
    requires Disciplined(e.channels) && WellRouted(route)
    ensures forall i :: 0 <= i < |e.Listeners(route.0)| ==> Matches(e.Listeners(route.0)[i], route.1)
  {
    assert WILDCARD[0] == 'n' && QUERIES_PREFIX[0] == 'q' && STATUS_PREFIX[0] == 's';
  }

  /**
   * On a disciplined emitter, a command's channel holds only `query` listeners,
   * a status document's channel only property subscribers, and the wildcard
   * channel only wildcard subscribers.
   */
  lemma ListenerKinds(e: Emitter<Listener>, a: ObjectId, b: ObjectId)
    requires Disciplined(e.channels)
    ensures forall k :: 0 <= k < |e.Listeners(QueriesChannel(a))| ==> e.Listeners(QueriesChannel(a))[k].QueryReply?
    ensures forall k :: 0 <= k < |e.Listeners(StatusChannel(b))| ==> e.Listeners(StatusChannel(b))[k].Subscriber?
    ensures forall k :: 0 <= k < |e.Listeners(WILDCARD)| ==> e.Listeners(WILDCARD)[k].Wildcard?
  {
    ChannelsDistinct(a, b);
    var q, st := QueriesChannel(a), StatusChannel(b);
    assert q[0] == QUERIES_PREFIX[0] == 'q' && st[0] == STATUS_PREFIX[0] == 's';
    assert WILDCARD[0] == 'n' && |WILDCARD| >= |QUERIES_PREFIX| && |WILDCARD| >= |STATUS_PREFIX|;
  }

  /** The invocations the emits of `routes` make, in order. */
  function Delivered(e: Emitter<Listener>, routes: seq<Route>): seq<Call>
    reads e
    requires Disciplined(e.channels) && forall i :: 0 <= i < |routes| ==> WellRouted(routes[i])
  {
    if routes == [] then []
    else
      var (ch, s) := routes[|routes| - 1];
      ListenersMatch(e, routes[|routes| - 1]);
      Delivered(e, routes[..|routes| - 1]) + Deliveries(e.Listeners(ch), s)
  }

  /**
   * Emits compose in order: the invocations of two batches of emits, one after
   * the other, are those of the first batch followed by those of the second.
   */
  lemma {:induction false} DeliveredAppend(e: Emitter<Listener>, a: seq<Route>, b: seq<Route>)
    requires Disciplined(e.channels)
    requires forall i :: 0 <= i < |a| ==> WellRouted(a[i])
    requires forall i :: 0 <= i < |b| ==> WellRouted(b[i])
    ensures forall i :: 0 <= i < |a + b| ==> WellRouted((a + b)[i])
    ensures Delivered(e, a + b) == Delivered(e, a) + Delivered(e, b)
    decreases |b|
  {
    assert forall i :: 0 <= i < |a + b| ==> (a + b)[i] == if i < |a| then a[i] else b[i - |a|];
    if b == [] {
      assert a + b == a;
    } else {
      var front := b[..|b| - 1];
      assert (a + b)[..|a + b| - 1] == a + front;
      assert (a + b)[|a + b| - 1] == b[|b| - 1];
      DeliveredAppend(e, a, front);
    }
  }

  /**
   * The command hooks never announce on a status or wildcard channel, and the
   * status hooks never on a queries channel: query listeners hear only their
   * own command, subscribers only status changes.
   */
  lemma RoutesStayInTheirKind(doc: CommandDoc, item: StatusDoc)
    ensures forall r :: r in CommandRoutes(doc) ==> r.0 == QueriesChannel(doc.id)
    ensures forall r, id: ObjectId :: r in StatusRoutes(item) ==> r.0 != QueriesChannel(id)
    ensures forall r, id: ObjectId :: r in CommandRoutes(doc) ==> r.0 != StatusChannel(id) && r.0 != WILDCARD
  {
    forall id: ObjectId
      ensures StatusChannel(item.id) != QueriesChannel(id) && WILDCARD != QueriesChannel(id)
      ensures QueriesChannel(doc.id) != StatusChannel(id) && QueriesChannel(doc.id) != WILDCARD
    {
      ChannelsDistinct(id, item.id);
      ChannelsDistinct(doc.id, id);
    }
  }

  /**
   * A completed command document reaches every `query` listener of its id, in
   * registration order, as `(null, result)`; a waiting one reaches nobody.
   */
  lemma CommandDelivery(e: Emitter<Listener>, doc: CommandDoc)
    requires Disciplined(e.channels)
    ensures Truthy(doc.waiting) ==> Delivered(e, CommandRoutes(doc)) == []
    ensures !Truthy(doc.waiting) ==>
      var ls := e.Listeners(QueriesChannel(doc.id));
      && |Delivered(e, CommandRoutes(doc))| == |ls|
      && forall k :: 0 <= k < |ls| ==>
           Delivered(e, CommandRoutes(doc))[k] == Call(ls[k].callback, [Val(Null), Val(doc.result)])
  {
    if !Truthy(doc.waiting) {
      var routes := CommandRoutes(doc);
      var ls := e.Listeners(QueriesChannel(doc.id));
      assert routes[..0] == [];
      ListenerKinds(e, doc.id, doc.id);
      var r := Deliveries(ls, ValueSignal(doc.result));
      assert Delivered(e, routes) == r;
      forall k | 0 <= k < |ls| ensures r[k] == Call(ls[k].callback, [Val(Null), Val(doc.result)]) {
        assert ls[k].QueryReply?;
      }
    }
  }

  /**
   * A status document reaches the subscribers of its own id with its value,
   * then every wildcard subscriber with `(property, value)`, each in
   * registration order.
   */
  lemma StatusDelivery(e: Emitter<Listener>, item: StatusDoc)
    requires Disciplined(e.channels)
    ensures var own := e.Listeners(StatusChannel(item.id));
      var all := e.Listeners(WILDCARD);
      var r := Delivered(e, StatusRoutes(item));
      && |r| == |own| + |all|
      && (forall k :: 0 <= k < |own| ==> r[k] == Call(own[k].callback, [Val(item.value)]))
      && (forall k :: 0 <= k < |all| ==> r[|own| + k] == Call(all[k].callback, [Val(item.property), Val(item.value)]))
  {
    var routes := StatusRoutes(item);
    ChannelsDistinct(item.id, item.id);
    ListenerKinds(e, item.id, item.id);
    assert routes[..1][..0] == [];
    assert routes[..1] == [routes[0]];
    assert routes[..|routes| - 1] == routes[..1];
    var own := Deliveries(e.Listeners(StatusChannel(item.id)), ValueSignal(item.value));
    assert Delivered(e, routes[..1]) == own;
    assert Delivered(e, routes) == own + Deliveries(e.Listeners(WILDCARD), ItemSignal(item));
  }

  /**
   * End to end: once the device has completed document `id` with `result`, the
   * sentinel's update hook hands `(null, result)` to every `query` listener of
   * that id.
   */
  lemma CompletionResolvesCaller(e: Emitter<Listener>, docs: seq<CommandDoc>, id: ObjectId, result: Value, k: nat)
    requires Disciplined(e.channels) && id in CommandIds(docs)
    requires k < |e.Listeners(QueriesChannel(id))|
    ensures FindCommand(SetResult(docs, id, result), id).Some?
    ensures var doc := FindCommand(SetResult(docs, id, result), id).value;
      && k < |Delivered(e, CommandRoutes(doc))|
      && Delivered(e, CommandRoutes(doc))[k] == Call(e.Listeners(QueriesChannel(id))[k].callback, [Val(Null), Val(result)])
  {
    var doc := FindCommand(SetResult(docs, id, result), id).value;
    assert doc == Completed(FindCommand(docs, id).value, result);
    CommandDelivery(e, doc);
  }

  /** One argument of `sentinel.query(...)`: a value, or the callback. */
  datatype JsArg = Plain(v: Value) | Callback(cb: CallbackId)

  function Plains(vs: seq<Value>): (r: seq<JsArg>)
    ensures |r| == |vs| && forall i :: 0 <= i < |vs| ==> r[i] == Plain(vs[i])
  {
    seq(|vs|, i requires 0 <= i < |vs| => Plain(vs[i]))
  }

  /** A call `query(name, a1, ..., callback)` that ends in its callback; everything before it is a value. */
  predicate QueryCall(args: seq<JsArg>) {
    && |args| >= 2
    && args[|args| - 1].Callback?
    && forall i :: 0 <= i < |args| - 1 ==> args[i].Plain?
  }

  /**
   * The split of `query`'s arguments: the first names the command, the last is
   * the callback, those between are the command's arguments. Reassembling the
   * three parts gives back the call.
   */
  function SplitQueryArgs(args: seq<JsArg>): (r: (Value, seq<Value>, CallbackId))
    requires QueryCall(args)
    ensures args == [Plain(r.0)] + Plains(r.1) + [Callback(r.2)]
  {
    var n := |args|;
    (args[0].v, seq(n - 2, i requires 0 <= i < n - 2 => args[i + 1].v), args[n - 1].cb)
  }

  /** The other direction: splitting a reassembled call gives back its parts. */
  lemma SplitJoin(name: Value, arguments: seq<Value>, callback: CallbackId)
    ensures QueryCall([Plain(name)] + Plains(arguments) + [Callback(callback)])
    ensures SplitQueryArgs([Plain(name)] + Plains(arguments) + [Callback(callback)]) == (name, arguments, callback)
  {
    var args := [Plain(name)] + Plains(arguments) + [Callback(callback)];
    var r := SplitQueryArgs(args);
    assert args[0] == Plain(name) && args[|args| - 1] == Callback(callback);
    assert |r.1| == |arguments|;
    forall i | 0 <= i < |arguments| ensures r.1[i] == arguments[i] {
      assert args[i + 1] == Plain(arguments[i]);
    }
    assert r.1 == arguments;
  }

  /** The document `query` inserts: the command, waiting, with a null result. */
  function WaitingCommand(id: ObjectId, name: Value, arguments: seq<Value>): (d: CommandDoc)
    ensures d.id == id && d.query == name && d.arguments == arguments
    ensures Truthy(d.waiting) && d.result == Null
  {
    CommandDoc(id, name, arguments, Bool(true), Null)
  }

  /**
   * An insert `query` has issued whose callback has not run yet: the document's
   * id, the caller's callback, and whether the store wrote the document.
   */
  datatype PendingInsert = PendingInsert(id: ObjectId, callback: CallbackId, written: bool)

  /** The object `sentinel(name, callback)` hands to its callback. */
  class Sentinel {
    const queriesCollection: CommandCollection
    const statusCollection: StatusCollection
    const emitter: Emitter<Listener>
    /** The inserts whose callbacks the driver still owes, oldest first. */
    var pending: seq<PendingInsert>

    ghost predicate Valid()
      reads this, emitter
    {
      Disciplined(emitter.channels)
    }

    constructor (queriesCollection: CommandCollection, statusCollection: StatusCollection)
      ensures Valid() && fresh(emitter) && emitter.channels == map[] && pending == []
      ensures this.queriesCollection == queriesCollection && this.statusCollection == statusCollection
    {
      this.queriesCollection := queriesCollection;
      this.statusCollection := statusCollection;
      emitter := new Emitter<Listener>();
      pending := [];
    }

    /** The emits of `routes`, one after the other. */
    method Fire(routes: seq<Route>) returns (calls: seq<Call>)
      requires Valid() && forall i :: 0 <= i < |routes| ==> WellRouted(routes[i])
      ensures calls == Delivered(emitter, routes)
    {
      calls := [];
      var i := 0;
      while i < |routes|
        invariant 0 <= i <= |routes|
        invariant calls == Delivered(emitter, routes[..i])
      {
        var (ch, s) := routes[i];
        var listeners := emitter.Emit(ch);
        ListenersMatch(emitter, routes[i]);
        assert routes[..i + 1][..i] == routes[..i];
        calls := calls + Deliveries(listeners, s);
        i := i + 1;
      }
      assert routes[..|routes|] == routes;
    }

    /** The insert hook on the queries collection. */
    method OnQueryInserted(doc: CommandDoc) returns (calls: seq<Call>)
      requires Valid()
      ensures calls == Delivered(emitter, CommandRoutes(doc))
    {
      calls := Fire(CommandRoutes(doc));
    }

    /** The update hook on the queries collection: the re-fetched document is routed; a failed read only logs. */
    method OnQueryUpdated(id: ObjectId, readFails: bool) returns (calls: seq<Call>)
      requires Valid()
      requires readFails || id in CommandIds(queriesCollection.docs)
      ensures readFails ==> calls == []
      ensures !readFails ==> calls == Delivered(emitter, CommandRoutes(FindCommand(queriesCollection.docs, id).value))
    {
      calls := [];
      if !readFails {
        var doc := FindCommand(queriesCollection.docs, id).value;
        calls := Fire(CommandRoutes(doc));
      }
    }

    /** The insert hook on the status collection. */
    method OnStatusInserted(item: StatusDoc) returns (calls: seq<Call>)
      requires Valid()
      ensures calls == Delivered(emitter, StatusRoutes(item))
    {
      calls := Fire(StatusRoutes(item));
    }

    /**
     * The update hook on the status collection: the re-fetched document is
     * routed; a failed read or a document no longer there only logs.
     */
    method OnStatusUpdated(id: ObjectId, readFails: bool) returns (calls: seq<Call>)
      requires Valid()
      ensures readFails || id !in StatusIds(statusCollection.docs) ==> calls == []
      ensures !readFails && id in StatusIds(statusCollection.docs) ==>
        calls == Delivered(emitter, StatusRoutes(FindStatusById(statusCollection.docs, id).value))
    {
      calls := [];
      if !readFails {
        var found := FindStatusById(statusCollection.docs, id);
        if found.Some? {
          calls := Fire(StatusRoutes(found.value));
        }
      }
    }

    /**
     * `query(name, ...arguments, callback)`: builds the waiting command and
     * hands it to the store's insert. The store keeps it unless the insert fails;
     * the insert's callback runs later, in `InsertAcknowledged`.
     */
    method Query(args: seq<JsArg>, newId: ObjectId, writeFails: bool)
      requires Valid() && QueryCall(args)
      modifies queriesCollection, this`pending
      ensures Valid()
      ensures var (name, arguments, callback) := SplitQueryArgs(args);
        var inserted := InsertCommand(old(queriesCollection.docs), WaitingCommand(newId, name, arguments));
        var written := inserted.Some? && !writeFails;
        && queriesCollection.docs == (if written then inserted.value else old(queriesCollection.docs))
        && pending == old(pending) + [PendingInsert(newId, callback, written)]
    {
      var (name, arguments, callback) := SplitQueryArgs(args);
      var inserted := InsertCommand(queriesCollection.docs, WaitingCommand(newId, name, arguments));
      var written := inserted.Some? && !writeFails;
      if written {
        queriesCollection.docs := inserted.value;
      }
      pending := pending + [PendingInsert(newId, callback, written)];
    }

    /**
     * The callback of the `k`-th outstanding insert of `query`: on a failed
     * insert, `callback(err, null)` and no listener; otherwise a listener on the
     * command's channel that stays registered and answers `callback(null, result)`
     * whenever that channel fires. A result announced before this runs has no
     * listener to reach.
     */
    method InsertAcknowledged(k: nat) returns (calls: seq<Call>)
      requires Valid() && k < |pending|
      modifies this`pending, emitter
      ensures Valid()
      ensures pending == old(pending[..k] + pending[k + 1..])
      ensures var p := old(pending[k]);
        if p.written then
          && calls == []
          && emitter.channels == old(emitter.channels)[QueriesChannel(p.id) :=
                                   old(emitter.Listeners(QueriesChannel(p.id))) + [QueryReply(p.callback)]]
        else
          && calls == [Call(p.callback, [Error, Val(Null)])]
          && emitter.channels == old(emitter.channels)
    {
      var p := pending[k];
      pending := pending[..k] + pending[k + 1..];
      if p.written {
        ChannelsDistinct(p.id, p.id);
        emitter.On(QueriesChannel(p.id), QueryReply(p.callback));
        calls := [];
      } else {
        calls := [Call(p.callback, [Error, Val(Null)])];
      }
    }

    /** `getStatus(property, callback)`: the same read as the device's, without a start check. */
    method GetStatus(property: Value, callback: CallbackId, readFails: bool) returns (calls: seq<Call>)
      ensures calls == [StatusReply(statusCollection.docs, property, callback, readFails)]
    {
      calls := [StatusReply(statusCollection.docs, property, callback, readFails)];
    }

    /**
     * `subscribe(property, callback)`: with a property, `callback` joins the
     * channel of that property's document (a failed read only logs); without
     * one, a wildcard listener joins the wildcard channel.
     */
    method Subscribe(property: Value, callback: CallbackId, readFails: bool)
      requires Valid()
      requires Truthy(property) && !readFails ==> CountProperty(statusCollection.docs, property) > 0
      modifies emitter
      ensures Valid()
      ensures !Truthy(property) ==>
        emitter.channels == old(emitter.channels)[WILDCARD := old(emitter.Listeners(WILDCARD)) + [Wildcard(callback)]]
      ensures Truthy(property) && readFails ==> emitter.channels == old(emitter.channels)
      ensures Truthy(property) && !readFails ==>
        var ch := StatusChannel(FindStatus(statusCollection.docs, property).value.id);
        emitter.channels == old(emitter.channels)[ch := old(emitter.Listeners(ch)) + [Subscriber(callback)]]
    {
      if Truthy(property) {
        if !readFails {
          var data := FindStatus(statusCollection.docs, property).value;
          ChannelsDistinct(data.id, data.id);
          emitter.On(StatusChannel(data.id), Subscriber(callback));
        }
      } else {
        emitter.On(WILDCARD, Wildcard(callback));
      }
    }
  }

  /**
   * `sentinel(name, callback)`: looks up the named thing's collections with the
   * module's database and suffixes; on success a sentinel with a new, empty
   * emitter, otherwise the lookup's error.
   */
  method Open(thing: Thing, name: Value) returns (r: Result<Sentinel, CollectionsError>)
    requires thing.Valid()
    ensures var found := GetCollections(name, thing.db, thing.configuration.own[QUERIES_SUFFIX], thing.configuration.own[STATUS_SUFFIX]);
      match found
      case Failure(e) => r == Failure(e)
      case Success(collections) =>
        && r.Success?
        && r.value.queriesCollection == collections.0
        && r.value.statusCollection == collections.1
        && fresh(r.value) && fresh(r.value.emitter) && r.value.emitter.channels == map[]
        && r.value.pending == [] && r.value.Valid()
  {
    var found := GetCollections(name, thing.db, thing.configuration.own[QUERIES_SUFFIX], thing.configuration.own[STATUS_SUFFIX]);
    match found {
      case Failure(e) =>
        r := Failure(e);
      case Success(collections) =>
        var s := new Sentinel(collections.0, collections.1);
        r := Success(s);
    }
  }
}
