/**
 * The device side: the module-level state of `node-thing` (its configuration
 * and its objects) and the operations a device runs against it.
 */
module NodeThing {
  import opened Wrappers
  import opened JsValues
  import opened ObjectIds
  import opened Documents
  import opened Store
  import opened Callbacks
  import opened Events
  import opened Configuration

  /**
   * `query_arguments.concat(completion)`: what a handler is applied to, the
   * command's arguments followed by the completion function of document `id`.
   */
  function HandlerArgs(arguments: seq<Value>, id: ObjectId): (a: seq<Arg>)
    ensures |a| == |arguments| + 1 && a[|arguments|] == Done(id)
    ensures forall j :: 0 <= j < |arguments| ==> a[j] == Val(arguments[j])
  {
    Vals(arguments) + [Done(id)]
  }

  /**
   * The invocations `emit(query.query, id, arguments)` makes on the device's
   * emitter: every handler registered under the command's name, in registration
   * order, each applied once to `HandlerArgs(arguments, id)`.
   */
  function HandlerCalls(handlers: seq<CallbackId>, id: ObjectId, arguments: seq<Value>): (r: seq<Call>)
    ensures |r| == |handlers|
    ensures forall i :: 0 <= i < |r| ==> r[i] == Call(handlers[i], HandlerArgs(arguments, id))
  {
    seq(|handlers|, i requires 0 <= i < |handlers| => Call(handlers[i], HandlerArgs(arguments, id)))
  }

  /**
   * What `updateStatus` does once started: the `findOne` for the property, then
   * `updateMany` or `insert`, then `callback` with the store's answer. Returns the
   * new documents of the status collection and the callback's invocation.
   */
  function UpdateStatusStep(docs: seq<StatusDoc>, property: Value, value: Value, callback: CallbackId,
                            readFails: bool, newId: ObjectId, writeFails: bool): (r: (seq<StatusDoc>, Call))
    ensures r.1.callback == callback
    ensures r.1.args == [Val(Null), Ack] <==> !readFails && !writeFails && Upsert(docs, property, value, newId).Some?
    ensures r.1.args == [Val(Null), Ack] ==> Some(r.0) == Upsert(docs, property, value, newId)
    ensures r.1.args != [Val(Null), Ack] ==> r.0 == docs
  {
    if readFails then (docs, Call(callback, [Error, Val(Null)]))
    else match Upsert(docs, property, value, newId)
      case None => (docs, Call(callback, [Error]))
      case Some(written) =>
        if writeFails then (docs, Call(callback, [Error]))
        else (written, Call(callback, [Val(Null), Ack]))
  }

  /**
   * Round trip on the device: once `updateStatus(p, v)` has reported success,
   * `getStatus(p)` answers `(null, v)` and `p` has exactly one document if it had
   * at most one before.
   */
  lemma UpdateThenGetStatus(docs: seq<StatusDoc>, p: Value, v: Value, callback: CallbackId,
                            newId: ObjectId, reader: CallbackId)
    requires Truthy(p)
    requires UpdateStatusStep(docs, p, v, callback, false, newId, false).1.args == [Val(Null), Ack]
    requires CountProperty(docs, p) <= 1
    ensures var written := UpdateStatusStep(docs, p, v, callback, false, newId, false).0;
      && StatusReply(written, p, reader, false) == Call(reader, [Val(Null), Val(v)])
      && CountProperty(written, p) == 1
  {
    StatusReplyAfterUpsert(docs, p, v, newId, reader);
    if CountProperty(docs, p) > 0 {
      UpsertUpdatesWhenPresent(docs, p, v, newId);
    } else {
      UpsertInsertsWhenAbsent(docs, p, v, newId);
    }
  }

  /** `exports.configuration` together with `exports.objects`. */
  class Thing {
    var configuration: Config
    var db: Database?
    var eventEmitter: Emitter?<CallbackId>
    var queriesCollection: CommandCollection?
    var statusCollection: StatusCollection?

    /** The configuration keeps its own keys; `start` sets the three objects together. */
    ghost predicate Valid()
      reads this
    {
      && CONFIG_KEYS <= configuration.own.Keys
      && (eventEmitter == null <==> queriesCollection == null)
      && (eventEmitter == null <==> statusCollection == null)
    }

    /** The three objects `start` stores are all set. */
    predicate Started()
      reads this
    {
      eventEmitter != null && queriesCollection != null && statusCollection != null
    }

    /** The state module loading creates: the default configuration and no objects. */
    constructor ()
      ensures Valid() && !Started()
      ensures configuration == INITIAL && db == null
    {
      configuration := INITIAL;
      db := null;
      eventEmitter := null;
      queriesCollection := null;
      statusCollection := null;
    }

    /**
     * `configure(customConfiguration)`: the entries are applied in order; a key
     * the `in` test finds is assigned the supplied value (on `__proto__` the
     * setter runs, and `null` drops the prototype), any other key is left out and
     * returned among the rejected (warned about) keys.
     */
    method Configure(custom: seq<Entry>) returns (rejected: seq<string>)
      requires Valid()
      modifies this`configuration
      ensures Valid()
      ensures configuration == Merge(old(configuration), custom)
      ensures rejected == Rejected(old(configuration), custom)
    {
      rejected := [];
      var i := 0;
      while i < |custom|
        invariant 0 <= i <= |custom|
        invariant configuration == Merge(old(configuration), custom[..i])
        invariant rejected == Rejected(old(configuration), custom[..i])
      {
        var (attribute, value) := custom[i];
        assert custom[..i + 1][..i] == custom[..i];
        if Known(configuration, attribute) {
          if Writable(configuration, attribute) {
            configuration := configuration.(own := configuration.own[attribute := value]);
          } else if value == Null {
            configuration := configuration.(inherits := false);
          }
        } else {
          rejected := rejected + [attribute];
        }
        i := i + 1;
      }
      assert custom[..|custom|] == custom;
    }

    /** `connect`: the database object is recorded when the connection succeeds (`connection != null`). */
    method Connect(connection: Database?) returns (failed: bool)
      modifies this`db
      ensures failed <==> connection == null
      ensures db == if failed then old(db) else connection
    {
      failed := connection == null;
      if !failed {
        db := connection;
      }
    }

    /**
     * `start(callback)`: looks up the collections of the configured thing; on
     * success stores them with a new, empty event emitter, on failure reports the
     * error and changes nothing.
     */
    method Start() returns (err: Option<CollectionsError>)
      requires Valid()
      modifies this`eventEmitter, this`queriesCollection, this`statusCollection
      ensures Valid()
      ensures var found := GetCollections(configuration.own[THING_NAME], db,
                                          configuration.own[QUERIES_SUFFIX], configuration.own[STATUS_SUFFIX]);
        match found
        case Failure(e) =>
          && err == Some(e)
          && eventEmitter == old(eventEmitter)
          && queriesCollection == old(queriesCollection)
          && statusCollection == old(statusCollection)
        case Success(collections) =>
          && err == None
          && Started()
          && queriesCollection == collections.0
          && statusCollection == collections.1
          && fresh(eventEmitter) && eventEmitter.channels == map[]
    {
      var found := GetCollections(configuration.own[THING_NAME], db,
                                  configuration.own[QUERIES_SUFFIX], configuration.own[STATUS_SUFFIX]);
      match found {
        case Failure(e) =>
          err := Some(e);
        case Success(collections) =>
          queriesCollection := collections.0;
          statusCollection := collections.1;
          eventEmitter := new Emitter<CallbackId>();
          err := None;
      }
    }

    /** `validateStarted(callback)`: whether `callback` runs; when it does not, only an error is logged. */
    method ValidateStarted() returns (proceed: bool)
      ensures proceed <==> Started()
    {
      proceed := eventEmitter != null && queriesCollection != null && statusCollection != null;
    }

    /**
     * The insert hook on the queries collection: a waiting command document is
     * dispatched to every handler registered under its name, others to none.
     */
    method OnQueryInserted(doc: CommandDoc) returns (calls: seq<Call>)
      requires Valid() && Started()
      ensures calls == if Truthy(doc.waiting)
                       then HandlerCalls(eventEmitter.Listeners(ToStr(doc.query)), doc.id, doc.arguments)
                       else []
    {
      calls := [];
      if Truthy(doc.waiting) {
        var handlers := eventEmitter.Emit(ToStr(doc.query));
        calls := HandlerCalls(handlers, doc.id, doc.arguments);
      }
    }

    /**
     * The update hook on the queries collection: the document is re-fetched by id
     * and dispatched like an inserted one; a failed read is only logged.
     */
    method OnQueryUpdated(id: ObjectId, readFails: bool) returns (calls: seq<Call>)
      requires Valid() && Started()
      requires readFails || id in CommandIds(queriesCollection.docs)
      ensures readFails ==> calls == []
      ensures !readFails ==>
        var doc := FindCommand(queriesCollection.docs, id).value;
        calls == if Truthy(doc.waiting)
                 then HandlerCalls(eventEmitter.Listeners(ToStr(doc.query)), id, doc.arguments)
                 else []
    {
      calls := [];
      if !readFails {
        var doc := FindCommand(queriesCollection.docs, id).value;
        if Truthy(doc.waiting) {
          var handlers := eventEmitter.Emit(ToStr(doc.query));
          calls := HandlerCalls(handlers, id, doc.arguments);
        }
      }
    }

    /**
     * `onQuery(query, callback)`: once started, `callback` is added to the
     * handlers of `query`, after those registered before; before start nothing
     * happens.
     */
    method OnQuery(query: Value, callback: CallbackId)
      requires Valid()
      modifies eventEmitter
      ensures Started() ==>
        eventEmitter.channels == old(eventEmitter.channels)[ToStr(query) := old(eventEmitter.Listeners(ToStr(query))) + [callback]]
    {
      var proceed := ValidateStarted();
      if proceed {
        eventEmitter.On(ToStr(query), callback);
      }
    }

    /**
     * The completion function a handler receives for document `id`, called with
     * `result`: `$set`s the result and clears `waiting` on that document. A failed
     * write is only logged.
     */
    method Complete(id: ObjectId, result: Value, writeFails: bool)
      requires Valid() && Started()
      modifies queriesCollection
      ensures queriesCollection.docs == if writeFails then old(queriesCollection.docs)
                                        else SetResult(old(queriesCollection.docs), id, result)
    {
      if !writeFails {
        queriesCollection.docs := SetResult(queriesCollection.docs, id, result);
      }
    }

    /**
     * `updateStatus(property, value, callback)`: once started, the upsert of the
     * property and one invocation of `callback`; before start no store access and
     * no invocation.
     */
    method UpdateStatus(property: Value, value: Value, callback: CallbackId,
                        readFails: bool, newId: ObjectId, writeFails: bool) returns (calls: seq<Call>)
      requires Valid()
      modifies statusCollection
      ensures !Started() ==> calls == []
      ensures Started() ==>
        var (written, reply) := UpdateStatusStep(old(statusCollection.docs), property, value, callback, readFails, newId, writeFails);
        statusCollection.docs == written && calls == [reply]
    {
      calls := [];
      var proceed := ValidateStarted();
      if proceed {
        var (written, reply) := UpdateStatusStep(statusCollection.docs, property, value, callback, readFails, newId, writeFails);
        statusCollection.docs := written;
        calls := [reply];
      }
    }

    /**
     * `getStatus(property, callback)`: once started, one invocation of `callback`
     * with the value of `property` (or every status document); before start none.
     */
    method GetStatus(property: Value, callback: CallbackId, readFails: bool) returns (calls: seq<Call>)
      requires Valid()
      ensures calls == if Started() then [StatusReply(statusCollection.docs, property, callback, readFails)] else []
    {
      calls := [];
      var proceed := ValidateStarted();
      if proceed {
        calls := [StatusReply(statusCollection.docs, property, callback, readFails)];
      }
    }
  }
}
