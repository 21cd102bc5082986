/**
 * Whole exchanges between a device and a sentinel that share one database,
 * with the oplog events each write produces fed to the hooks by hand.
 */
module Scenarios {
  import opened Wrappers
  import opened JsValues
  import opened ObjectIds
  import opened Channels
  import opened Documents
  import opened Store
  import opened Callbacks
  import opened Configuration
  import opened NodeThing
  import opened Sentinels

  /** A database holding the two collections of a thing called "lamp", both empty. */
  method LampDatabase() returns (db: Database)
    ensures fresh(db)
    ensures db.commandCollections.Keys == {"lamp_queries"} && db.statusCollections.Keys == {"lamp_status"}
    ensures db.commandCollections["lamp_queries"].docs == [] && db.statusCollections["lamp_status"].docs == []
    ensures fresh(db.commandCollections["lamp_queries"]) && fresh(db.statusCollections["lamp_status"])
  {
    var queries := new CommandCollection([]);
    var status := new StatusCollection([]);
    db := new Database(map["lamp_queries" := queries], map["lamp_status" := status]);
  }

  /** The configuration after `configure({ thingName : "lamp", colour : "red" })`. */
  lemma LampConfiguration()
    ensures var c := Merge(INITIAL, [(THING_NAME, Str("lamp")), ("colour", Str("red"))]).own;
      c[THING_NAME] == Str("lamp") && c[QUERIES_SUFFIX] == Str("_queries") && c[STATUS_SUFFIX] == Str("_status")
  {
    var custom := [(THING_NAME, Str("lamp")), ("colour", Str("red"))];
    MergeValues(INITIAL, custom);
    assert LastFor(custom, 0);
  }

  /** A device configured as "lamp" and connected to `db`, not yet started. */
  method ConnectedLamp(db: Database) returns (thing: Thing)
    ensures fresh(thing) && thing.Valid() && !thing.Started() && thing.db == db
    ensures thing.configuration.own[THING_NAME] == Str("lamp")
    ensures thing.configuration.own[QUERIES_SUFFIX] == Str("_queries")
    ensures thing.configuration.own[STATUS_SUFFIX] == Str("_status")
  {
    thing := new Thing();
    var rejected := thing.Configure([(THING_NAME, Str("lamp")), ("colour", Str("red"))]);
    LampConfiguration();
    var failed := thing.Connect(db);
  }

  /** A device configured, connected and started as "lamp", and a sentinel for it. */
  method Setup() returns (thing: Thing, sentinel: Sentinel)
    ensures fresh(thing) && thing.Valid() && thing.Started()
    ensures fresh(thing.eventEmitter) && thing.eventEmitter.channels == map[]
    ensures fresh(thing.queriesCollection) && fresh(thing.statusCollection)
    ensures thing.queriesCollection.docs == [] && thing.statusCollection.docs == []
    ensures sentinel.Valid() && fresh(sentinel) && fresh(sentinel.emitter) && sentinel.emitter.channels == map[]
    ensures sentinel.pending == []
    ensures sentinel.queriesCollection == thing.queriesCollection
    ensures sentinel.statusCollection == thing.statusCollection
    ensures sentinel.emitter as object != thing.eventEmitter as object
  {
    var db := LampDatabase();
    thing := ConnectedLamp(db);
    assert CollectionName(Str("lamp"), Str("_queries")) == "lamp_queries";
    assert CollectionName(Str("lamp"), Str("_status")) == "lamp_status";
    var err := thing.Start();
    var created := Open(thing, Str("lamp"));
    sentinel := created.value;
  }

  /**
   * A started device with a "ping" handler, and a sentinel whose `query("ping",
   * callback 7)` the store has written as command `id` without running the
   * insert's callback yet.
   */
  method PingQueried(id: ObjectId) returns (thing: Thing, sentinel: Sentinel)
    ensures thing.Valid() && thing.Started() && sentinel.Valid()
    ensures fresh(thing) && fresh(thing.queriesCollection) && fresh(sentinel) && fresh(sentinel.emitter)
    ensures sentinel.queriesCollection == thing.queriesCollection
    ensures thing.queriesCollection.docs == [WaitingCommand(id, Str("ping"), [])]
    ensures thing.eventEmitter.Listeners("ping") == [1]
    ensures sentinel.emitter.channels == map[]
    ensures sentinel.pending == [PendingInsert(id, 7, true)]
  {
    thing, sentinel := Setup();
    thing.OnQuery(Str("ping"), 1);
    sentinel.Query([Plain(Str("ping")), Callback(7)], id, false);
    assert SplitQueryArgs([Plain(Str("ping")), Callback(7)]) == (Str("ping"), [], 7) by {
      SplitJoin(Str("ping"), [], 7);
      assert [Plain(Str("ping"))] + Plains([]) + [Callback(7)] == [Plain(Str("ping")), Callback(7)];
    }
  }

  /**
   * The first half of the ping exchange: the same, once the insert's callback has
   * registered the caller's listener.
   */
  method PingIssued(id: ObjectId) returns (thing: Thing, sentinel: Sentinel)
    ensures thing.Valid() && thing.Started() && sentinel.Valid()
    ensures fresh(thing) && fresh(thing.queriesCollection)
    ensures sentinel.queriesCollection == thing.queriesCollection
    ensures thing.queriesCollection.docs == [WaitingCommand(id, Str("ping"), [])]
    ensures thing.eventEmitter.Listeners("ping") == [1]
    ensures sentinel.emitter.Listeners(QueriesChannel(id)) == [QueryReply(7)]
  {
    thing, sentinel := PingQueried(id);
    var acked := sentinel.InsertAcknowledged(0);
  }

  /**
   * The second half of the ping exchange: the device completes the waiting "ping"
   * with "pong", and the sentinel's update hook answers callback 7.
   */
  method PongAnswered(thing: Thing, sentinel: Sentinel, id: ObjectId) returns (answered: seq<Call>)
    requires thing.Valid() && thing.Started() && sentinel.Valid()
    requires sentinel.queriesCollection == thing.queriesCollection
    requires thing.queriesCollection.docs == [WaitingCommand(id, Str("ping"), [])]
    requires sentinel.emitter.Listeners(QueriesChannel(id)) == [QueryReply(7)]
    modifies thing.queriesCollection
    ensures answered == [Call(7, [Val(Null), Val(Str("pong"))])]
  {
    CompletionResolvesCaller(sentinel.emitter, thing.queriesCollection.docs, id, Str("pong"), 0);
    thing.Complete(id, Str("pong"), false);
    answered := sentinel.OnQueryUpdated(id, false);
  }

  /**
   * The ping exchange: the sentinel issues "ping" without arguments, the device's
   * "ping" handler completes it with "pong", and the sentinel's callback
   * receives `(null, "pong")`.
   */
  method PingPong(id: ObjectId) returns (handled: seq<Call>, answered: seq<Call>)
    ensures handled == [Call(1, [Done(id)])]
    ensures answered == [Call(7, [Val(Null), Val(Str("pong"))])]
  {
    var thing, sentinel := PingIssued(id);
    handled := thing.OnQueryInserted(WaitingCommand(id, Str("ping"), []));
    assert HandlerArgs([], id) == [Done(id)];
    assert |handled| == 1 && handled[0] == Call(1, [Done(id)]);
    answered := PongAnswered(thing, sentinel, id);
  }

  /**
   * The same exchange when the device's answer reaches the sentinel before the
   * store has run the insert's callback: the update hook finds no listener, and
   * the listener registered afterwards waits for an announcement that has
   * already happened.
   */
  method AnswerBeforeAcknowledgement(id: ObjectId) returns (answered: seq<Call>, acked: seq<Call>)
    ensures answered == [] && acked == []
  {
    var thing, sentinel := PingQueried(id);
    var doc := WaitingCommand(id, Str("ping"), []);
    assert thing.queriesCollection.docs == [doc];
    thing.Complete(id, Str("pong"), false);
    assert FindCommand(thing.queriesCollection.docs, id) == Some(Completed(doc, Str("pong")));
    answered := sentinel.OnQueryUpdated(id, false);
    CommandDelivery(sentinel.emitter, Completed(doc, Str("pong")));
    acked := sentinel.InsertAcknowledged(0);
  }

  /** A command nobody handles is dispatched to nobody and stays waiting. */
  method Unhandled(id: ObjectId) returns (handled: seq<Call>, answered: seq<Call>)
    ensures handled == [] && answered == []
  {
    var thing, sentinel := Setup();
    thing.OnQuery(Str("ping"), 1);
    sentinel.Query([Plain(Str("unknown")), Callback(7)], id, false);
    assert SplitQueryArgs([Plain(Str("unknown")), Callback(7)]) == (Str("unknown"), [], 7) by {
      SplitJoin(Str("unknown"), [], 7);
      assert [Plain(Str("unknown"))] + Plains([]) + [Callback(7)] == [Plain(Str("unknown")), Callback(7)];
    }
    var doc := WaitingCommand(id, Str("unknown"), []);
    assert thing.eventEmitter.Listeners("unknown") == [];
    handled := thing.OnQueryInserted(doc);
    answered := sentinel.OnQueryInserted(doc);
  }

  /** A device that has reported "temp" as 72 under id `first`, and a sentinel subscribed to "temp" with callback 5. */
  method TempSubscribed(first: ObjectId) returns (thing: Thing, sentinel: Sentinel)
    ensures thing.Valid() && thing.Started() && sentinel.Valid()
    ensures fresh(thing) && fresh(thing.statusCollection)
    ensures sentinel.statusCollection == thing.statusCollection
    ensures thing.statusCollection.docs == [StatusDoc(first, Str("temp"), Num(72))]
    ensures sentinel.emitter.Listeners(StatusChannel(first)) == [Subscriber(5)]
    ensures sentinel.emitter.Listeners(WILDCARD) == []
  {
    thing, sentinel := Setup();
    var r1 := thing.UpdateStatus(Str("temp"), Num(72), 2, false, first, false);
    var item := StatusDoc(first, Str("temp"), Num(72));
    assert thing.statusCollection.docs == [item];
    sentinel.Subscribe(Str("temp"), 5, false);
    ChannelsDistinct(first, first);
  }

  /**
   * Two updates of a subscribed property: a sentinel subscribes to "temp" once it exists; two
   * updates leave one document with the last value, and each update reaches
   * the subscriber once with the new value.
   */
  method Temperature(first: ObjectId, second: ObjectId) returns (heard: seq<Call>, count: nat, last: Value)
    ensures heard == [Call(5, [Val(Num(75))])]
    ensures count == 1 && last == Num(75)
  {
    var thing, sentinel := TempSubscribed(first);
    var temp := Str("temp");
    var item := StatusDoc(first, temp, Num(72));
    var r2 := thing.UpdateStatus(temp, Num(75), 2, false, second, false);
    var updated := StatusDoc(first, temp, Num(75));
    assert SetValue([item], temp, Num(75)) == [updated];
    assert thing.statusCollection.docs == [updated];
    assert [updated][1..] == [];
    assert CountProperty([], temp) == 0;
    assert CountProperty([updated], temp) == 1;
    assert FindStatus([updated], temp) == Some(updated);
    count := CountProperty(thing.statusCollection.docs, temp);
    last := FindStatus(thing.statusCollection.docs, temp).value.value;
    heard := sentinel.OnStatusUpdated(first, false);
    StatusDelivery(sentinel.emitter, updated);
    ChannelsDistinct(first, first);
  }
}
