# node-thing in Dafny

`node-thing` links a device (a "thing") and the controllers that watch it
(its "sentinels") through two collections in one database:

- The **queries** collection holds command documents. A sentinel inserts a
  command as waiting. The device's handler for that command name runs it, and
  the completion function the handler receives writes the result back and
  clears `waiting`.
- The **status** collection holds one document per reported property.
  `updateStatus` upserts into it. The device's and the sentinel's `getStatus`
  read from it, and `subscribe` fans its changes out to listeners.

Both sides react to the collections' change feeds (oplog insert and update
events) through an in-process event emitter keyed by channel names.

This project models that protocol over an in-memory store:

- `JsValues` models JavaScript values, truthiness, and `String(v)`, which is
  also the key under which an emitter files a listener.
- `ObjectIds` models ids as 24-hex-digit numbers. `Channels` models the channel
  names `"queries_"+id`, `"status_"+id` and `"new_or_updated"`, and proves them
  injective and disjoint.
- `Documents` models both collections as sequences of documents, plus the
  driver operations the module relies on: `findOne` by id or by property, the
  `insert` that fails on a duplicate id, `updateMany`, the completion's `$set`,
  and the upsert `updateStatus` performs.
- `Store` models each collection as a shared object held by a `Database`, so
  the device and its sentinels alias the same collection. It also models
  `getCollections`, including its order of checks.
- `Events` models the routing table: `on` appends a listener to a channel, and
  `emit` delivers to every listener of the channel in registration order.
- `Configuration` models `exports.configuration` and the `configure` merge.
- `NodeThing.Thing` models the module's mutable state (`exports.configuration`
  and `exports.objects`) and the device operations: `configure`, `connect`,
  `start` and its queries hooks, `validateStarted`, `onQuery` and the
  completion function, `updateStatus` and `getStatus`.
- `Sentinels.Sentinel` models the object `sentinel(name, callback)` hands
  back: its four oplog hooks, `query`, `getStatus` and `subscribe`.
- `Scenarios` runs whole exchanges between a device and a sentinel on one
  database, with the oplog events fed to the hooks by hand.

How effects are represented:

- Callbacks are not run. Each invocation is returned as a `Call` value that
  names the callback and lists its arguments.
- A handler's completion function appears as the argument `Done(id)`. Calling
  it is `Thing.Complete`.
- A store read or write that fails in the driver is a boolean input
  (`readFails`, `writeFails`).
- The id the store assigns to a new document is an input (`newId`).

Behaviour of the code worth knowing:

- `sentinel.query` registers its listener with `on`. The listener stays
  registered, so the caller's callback runs each time the channel fires.
- A second `onQuery` for the same name adds a handler beside the first one.
- Before `start`, the device operations have no effect and never call back.
  `validateStarted` reports nothing to the caller.
- The wildcard subscriber receives the property and the value as two
  arguments.
- `configure` tests keys with `in`, which also finds the names every object
  inherits from `Object.prototype`. Supplying `toString` therefore draws no
  warning and adds an own `toString` key.
- An own `__proto__` entry (as `JSON.parse('{"__proto__": null}')` creates)
  is assigned through the `Object.prototype` setter. With `null` it drops the
  configuration's prototype, so later entries for inherited names are warned
  about and not stored.
- `query` registers the caller's listener only when the store's insert
  callback runs. The device's answer can reach the sentinel's update hook
  before that; the emit then finds no listener, and the caller is never
  answered (`Scenarios.AnswerBeforeAcknowledgement`).

A consequence of the code that the model makes explicit: a falsy property name
(`""`, `0`, `null`) makes `getStatus` list every status document. A value
stored under such a name therefore cannot be read back by name.

## Model

| member | source | states |
|---|---|---|
| JsValues.Truthy | src/lib/node-thing.js:56 | every value is truthy except `undefined`, `null`, `false`, `0` and `""` |
| JsValues.NumberKeys | src/lib/node-thing.js:160 | as emitter keys, two numbers coincide exactly when they are equal, and a number coincides with its numeral |
| JsValues.DecimalInjective | src/lib/node-thing.js:160 | distinct numbers have distinct decimal numerals |
| Configuration.Merge | src/lib/node-thing.js:27-35 | `configure` never removes a key, the only keys it adds are names inherited from `Object.prototype` (other than `__proto__`), it never restores a dropped prototype, and a configuration without one gains no key |
| Configuration.MergeAddsOnlySupplied | src/lib/node-thing.js:27-35 | every key after `configure` was already there or is supplied by an entry |
| Configuration.MergeKeepsKinds | src/lib/node-thing.js:29-30 | applying entries never makes the `in` test find a new name; while the prototype is kept, it finds the same names and assignment stores the same ones |
| Configuration.PrototypeCleared | src/lib/node-thing.js:28-31 | the prototype is gone after `configure` exactly when it was gone before, or `__proto__` is no own key and some entry assigns it `null` |
| Configuration.MergeValues | src/lib/node-thing.js:27-35 | the last entry for a key decides it: the key holds that entry's value when the assignment stores it at that point of the loop, and is no own key otherwise; an own key no entry supplies keeps its value |
| Configuration.Rejected | src/lib/node-thing.js:28-33 | a key is warned about exactly when some entry supplies it and the `in` test, run on the configuration the earlier entries left, does not find it |
| Configuration.RejectedWhileInherited | src/lib/node-thing.js:28-33 | while the prototype is kept, a key is warned about exactly when it is supplied and is neither an own key nor an inherited name |
| Configuration.InheritedNamesAccepted | src/lib/node-thing.js:29-30 | an own `toString` entry draws no warning and becomes an own key; an own `__proto__` entry (as `JSON.parse` creates) draws no warning, drops the prototype when it is `null` and otherwise, for a value that is not an object, changes nothing |
| Configuration.NullPrototypeHidesInherited | src/lib/node-thing.js:28-33 | after an own `__proto__` entry set to `null`, a `toString` entry is warned about and not stored |
| NodeThing.Thing.constructor | src/lib/node-thing.js:10-24 | the initial state has the default configuration and no objects |
| NodeThing.Thing.Configure | src/lib/node-thing.js:27-35 | the loop leaves the configuration equal to the merge of the entries (the `in` test on the current configuration, then the assignment or the `__proto__` setter) and returns the rejected keys |
| NodeThing.Thing.Connect | src/lib/node-thing.js:37-52 | the database object is recorded only when the connection succeeds |
| Store.CollectionName | src/lib/node-thing.js:60 | a collection's name is the thing name's text followed by the suffix's text |
| Store.CollectionNamesDiffer | src/lib/node-thing.js:60-68 | a thing's two collection names are equal exactly when the two suffixes read the same |
| Store.GetCollections | src/lib/node-thing.js:54-88 | a falsy thing name fails before the database is looked at; a null database fails next; success exactly when both `thingName + suffix` collections exist, and then those two are returned; a missing collection is reported by its name, the queries collection first |
| NodeThing.Thing.Start | src/lib/node-thing.js:90-131 | a failed lookup reports its error and changes nothing; success stores both collections and a new, empty emitter |
| NodeThing.Thing.ValidateStarted | src/lib/node-thing.js:133-139 | the continuation runs exactly when all three objects are set |
| NodeThing.Thing.OnQueryInserted | src/lib/node-thing.js:110-115 | a waiting command is handed to every handler of its name, in registration order; a command that is not waiting reaches no handler |
| NodeThing.Thing.OnQueryUpdated | src/lib/node-thing.js:116-127 | the re-fetched document is dispatched like an inserted one; a failed read dispatches nothing |
| NodeThing.HandlerArgs | src/lib/node-thing.js:161-169 | a handler receives the command's arguments in order, then the completion function of that document |
| NodeThing.Thing.OnQuery | src/lib/node-thing.js:158-172 | once started, the handler is appended after the earlier handlers of its name and no other channel changes |
| NodeThing.Thing.Complete | src/lib/node-thing.js:161-167 | the completion sets the result and clears `waiting` on that document; a failed write changes nothing |
| Documents.Completed | src/lib/node-thing.js:162-163 | a completed command keeps its id, name and arguments, carries the result and is no longer waiting |
| Documents.SetResult | src/lib/node-thing.js:163 | the `$set` on an id keeps the collection's length and ids, touches only documents with that id, and a lookup of the id afterwards finds the completed document |
| Documents.FindCommand | src/lib/node-thing.js:118 | a lookup by id finds a document exactly when one has that id |
| Documents.FindStatus | src/lib/node-thing.js:143 | a lookup by property finds a document exactly when some document has that property, and then the first such document |
| Documents.FindStatusById | src/lib/node-thing.js:250 | a lookup by id finds a status document exactly when one has that id |
| Documents.InsertStatus | src/lib/node-thing.js:151-152 | a status insert succeeds exactly when the id is new, appends the document and adds its id |
| Documents.SetValue | src/lib/node-thing.js:148-149 | `updateMany` sets the value on exactly the documents of the property, each in its place |
| Documents.InsertCommand | src/lib/node-thing.js:270 | an insert succeeds exactly when the id is new, appends the document, and the id then finds it |
| Documents.Upsert | src/lib/node-thing.js:141-156 | the upsert fails only when it has to insert and the new id is taken |
| Documents.SetValueKeepsCounts | src/lib/node-thing.js:149 | `updateMany` never changes how many documents any property has |
| Documents.SetValueFound | src/lib/node-thing.js:149 | after `updateMany`, the first document of the property carries the new value |
| Documents.CountAppend | src/lib/node-thing.js:152 | an insert adds one to its own property's count and leaves every other count alone |
| Documents.FindStatusAppend | src/lib/node-thing.js:152 | a property that had no document is found at the inserted one |
| Documents.FindAfterAppend | src/lib/node-thing.js:270 | a command with a new id is found after it is appended |
| Documents.UpsertInsertsWhenAbsent | src/lib/node-thing.js:150-153 | with no document for the property, exactly one document `{property, value}` is inserted and other properties' counts stay the same |
| Documents.UpsertUpdatesWhenPresent | src/lib/node-thing.js:147-149 | with documents for the property, each of them gets the value, every other document is untouched and no count changes |
| Documents.UpsertThenFind | src/lib/node-thing.js:141-156 | after a successful upsert, a lookup of the property sees the new value |
| Documents.UpsertKeepsPropertiesUnique | src/lib/node-thing.js:141-156 | sequential upserts keep at most one document per property, and the property then has exactly one |
| NodeThing.UpdateStatusStep | src/lib/node-thing.js:143-153 | the callback is acknowledged exactly when the read and the write succeed and the upsert applies, and then the collection is the upsert's result; otherwise it is unchanged |
| NodeThing.Thing.UpdateStatus | src/lib/node-thing.js:141-156 | before start there is no store access and no callback; once started, one callback and the upsert's effect |
| NodeThing.UpdateThenGetStatus | src/lib/node-thing.js:141-186 | for a truthy `p` with at most one document before, after a successful `updateStatus(p, v)`, `getStatus(p)` answers `(null, v)` and `p` has exactly one document |
| Callbacks.StatusReply | src/lib/node-thing.js:174-198 | `getStatus` calls back once with two arguments, and the first is an error exactly when the read fails |
| Callbacks.StatusReplyAfterUpsert | src/lib/node-thing.js:177-185 | after an upsert of `p` with `v`, the point read of `p` answers `(null, v)` |
| Callbacks.StatusReplyMissing | src/lib/node-thing.js:181-182 | a property without a document answers `(null, null)` and no error |
| Callbacks.StatusReplyFalsyListsAll | src/lib/node-thing.js:187-195 | a falsy property answers with every status document |
| NodeThing.Thing.GetStatus | src/lib/node-thing.js:174-198 | before start no callback; once started, exactly the status reply |
| Sentinels.Sentinel.GetStatus | src/lib/node-thing.js:283-305 | the sentinel's read answers exactly like the device's, with no start check |
| Events.Emitter.constructor | src/lib/node-thing.js:102 | a new emitter has no listeners |
| Events.Emitter.On | src/lib/node-thing.js:160 | `on` appends the listener to its channel and leaves every other channel alone |
| Events.Emitter.Emit | src/lib/node-thing.js:113 | `emit` reaches every listener of the channel, in registration order |
| ObjectIds.Hex | src/lib/node-thing.js:226 | an id renders as a fixed number of lower-case hex digits |
| ObjectIds.IdText | src/lib/node-thing.js:226 | an id's text is 24 lower-case hex digits |
| ObjectIds.HexInjective | src/lib/node-thing.js:226 | two numbers below the width's bound with the same rendering are equal |
| ObjectIds.IdTextInjective | src/lib/node-thing.js:226 | two ids have the same text exactly when they are equal |
| Channels.QueriesChannel | src/lib/node-thing.js:226 | a command's channel is `"queries_"` followed by its id |
| Channels.StatusChannel | src/lib/node-thing.js:245 | a status document's channel is `"status_"` followed by its id |
| Channels.ChannelsDistinct | src/lib/node-thing.js:226-246 | channels of one kind are equal exactly when their ids are, and no queries, status and wildcard channel coincide |
| Sentinels.Deliver | src/lib/node-thing.js:275-319 | each listener calls back its own callback |
| Sentinels.CommandRoutes | src/lib/node-thing.js:225-226 | the command hooks emit only well-routed signals |
| Sentinels.StatusRoutes | src/lib/node-thing.js:245-246 | the status hooks send the whole document only to the wildcard channel |
| Sentinels.ListenersMatch | src/lib/node-thing.js:314-319 | on an emitter whose listeners sit on channels of their own kind, every listener of a well-routed emit takes that kind of signal |
| Sentinels.ListenerKinds | src/lib/node-thing.js:275-318 | a command's channel holds only `query` listeners, a status document's channel only property subscribers, and the wildcard channel only wildcard subscribers |
| Sentinels.DeliveredAppend | src/lib/node-thing.js:245-246 | the invocations of consecutive emits are those of each emit, in order |
| Sentinels.RoutesStayInTheirKind | src/lib/node-thing.js:223-258 | the command hooks emit only on their own `queries_` channel, the status hooks never on a `queries_` channel |
| Sentinels.CommandDelivery | src/lib/node-thing.js:223-240 | a document that is no longer waiting reaches every listener of its id, each a `query` caller answered `(null, result)`, in order; a waiting one reaches nobody |
| Sentinels.StatusDelivery | src/lib/node-thing.js:243-258 | a status document reaches every subscriber of its id with its value, then every wildcard subscriber with `(property, value)`, nothing else |
| Sentinels.CompletionResolvesCaller | src/lib/node-thing.js:161-163 | once the device completes a command with `result`, the sentinel's update hook answers each of its `query` callers with `(null, result)` |
| Sentinels.Sentinel.constructor | src/lib/node-thing.js:207-213 | a new sentinel holds the two collections and a new, empty emitter |
| Sentinels.Sentinel.Fire | src/lib/node-thing.js:245-246 | consecutive emits produce the invocations of each, in order |
| Sentinels.Sentinel.OnQueryInserted | src/lib/node-thing.js:223-228 | an inserted command is routed by its waiting flag |
| Sentinels.Sentinel.OnQueryUpdated | src/lib/node-thing.js:229-240 | the re-fetched command is routed by its waiting flag; a failed read emits nothing |
| Sentinels.Sentinel.OnStatusInserted | src/lib/node-thing.js:243-247 | an inserted status document is routed to its own channel and the wildcard channel |
| Sentinels.Sentinel.OnStatusUpdated | src/lib/node-thing.js:248-258 | the re-fetched document is routed the same way; a failed read or a vanished document emits nothing |
| Sentinels.SplitQueryArgs | src/lib/node-thing.js:262-269 | the call is the command name, then the command's arguments, then the callback |
| Sentinels.SplitJoin | src/lib/node-thing.js:262-269 | splitting a name, arguments and callback written as one call gives back the three parts |
| Sentinels.WaitingCommand | src/lib/node-thing.js:263-267 | the issued document carries the name and arguments, is waiting and has a null result |
| Sentinels.Sentinel.Query | src/lib/node-thing.js:261-270 | the waiting command is stored unless the insert fails, and its insert callback is queued; nothing else changes yet |
| Sentinels.Sentinel.InsertAcknowledged | src/lib/node-thing.js:270-279 | a failed insert's callback answers `(err, null)` and registers nothing; a successful one appends a listener for `(null, result)` to the command's channel |
| Sentinels.Sentinel.Subscribe | src/lib/node-thing.js:308-322 | a named property adds the callback to its document's channel (a failed read adds nothing); no property adds a wildcard listener |
| Sentinels.Open | src/lib/node-thing.js:200-213 | a failed lookup yields its error; success yields a sentinel over the found collections with an empty emitter |
| Scenarios.PingPong | src/lib/node-thing.js:110-127 | the device handler runs once with its completion, and the sentinel's callback then receives `(null, "pong")` |
| Scenarios.AnswerBeforeAcknowledgement | src/lib/node-thing.js:229-279 | when the device's answer reaches the sentinel before the insert's callback, nobody is answered |
| Scenarios.Unhandled | src/lib/node-thing.js:110-115 | a command nobody handles is dispatched to nobody and answers nobody |
| Scenarios.Temperature | src/lib/node-thing.js:141-156 | two updates of a subscribed property leave one document with the last value, and the subscriber hears the update once |

## Left out

- `connect`'s MongoDB client, the driver calls behind each collection, the `mongo-oplog` tails and log4js are external libraries. The collections are sequences, oplog events are calls to the hook methods, and log lines are dropped.
- The URI and namespace strings at lines 39, 105-106 and 216-218 only feed the driver and the oplog library, so they are not modelled.
- The `lastModified` timestamps are clock readings and are omitted from the documents.
- The ids the store assigns are inputs; the model does not generate them.
- `+` on values is modelled as string concatenation through `String(v)`. JavaScript's numeric addition when neither operand is a string is not modelled, and numbers are integers.
- Node's special event names are not modelled. An `"error"` emit with no listener throws. Every `on` first emits `"newListener"`, so after `onQuery("newListener", h)` a later `onQuery` runs h's wrapper with non-array arguments and `concat` throws. `Events.Emitter.On` only appends, and these names are command names like any other.
- Stored values are not converted the way BSON stores them. The driver stores `undefined` as `null`, drops functions and returns copies of objects. So `done()` with no argument reaches the sentinel's caller as `(null, null)`, but `Sentinels.CompletionResolvesCaller` delivers `Undefined`. Likewise `updateStatus(p, undefined)` reads back as `null`, not as `Callbacks.StatusReplyAfterUpsert`'s `Undefined`.
- Configuration.Merge: an own `__proto__` entry holding an object replaces the configuration's prototype, which changes the names the `in` test finds afterwards. The model treats such an entry as storing nothing. `null`, which drops the prototype, and the other primitives, which the setter ignores, are modelled.
- Calling `start` or `sentinel` again opens further oplog tails whose hooks would fire once more per event. The model has one set of hooks per object.
- Concurrent `updateStatus` calls are not modelled. The find-then-write runs as one step, so two callers cannot both insert.
- Each driver callback's payload is reduced to `Ack` or `Error`.
- The `$upsert: true` option of the completion write is not modelled. The completion is a `$set` on an existing id, and a missing id changes nothing.
- NodeThing.Thing.OnQueryUpdated: requires that a successful re-fetch finds the document, because the code crashes on a null document (line 122).
- Sentinels.Sentinel.OnQueryUpdated: requires that a successful re-fetch finds the document, because the code crashes on a null document (line 235).
- Sentinels.Sentinel.Subscribe: requires that a named property exists when the read succeeds, because the code dereferences the missing document (line 314).
- Sentinels.QueryCall: `sentinel.query` is modelled only for calls with at least two arguments that end in a callback and pass values before it; other calls crash or misbehave in the code.
- NodeThing.Thing.Complete: on a failed write the code at line 165 reads `thingName`, which is local to `start` (line 92) and not in scope in `onQuery`, so the driver callback throws a ReferenceError. The model records only that the failed write changes nothing.
- NodeThing.Thing.Connect: models only the state change and the outcome, not the URI or the driver's error object.
