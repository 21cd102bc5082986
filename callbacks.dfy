/**
 * Callbacks are not run: each invocation is recorded as a `Call`, naming the
 * callback and the arguments it receives.
 */
module Callbacks {
  import opened JsValues
  import opened ObjectIds
  import opened Documents

  /** Identifies one function a caller handed over (a callback or a command handler). */
  type CallbackId = nat

  /** One argument of a callback invocation. */
  datatype Arg =
    | Val(v: Value)                 // a plain JavaScript value (`null` included)
    | Error                         // an error object reported by the store
    | Ack                           // the store's acknowledgement of a successful write
    | Items(docs: seq<StatusDoc>)   // the array `find({}).toArray()` yields
    | Done(id: ObjectId)            // the completion function for command document `id`

  datatype Call = Call(callback: CallbackId, args: seq<Arg>)

  function Vals(vs: seq<Value>): (r: seq<Arg>)
    ensures |r| == |vs| && forall i :: 0 <= i < |vs| ==> r[i] == Val(vs[i])
  {
    seq(|vs|, i requires 0 <= i < |vs| => Val(vs[i]))
  }

  /**
   * What `getStatus(property, callback)` passes to `callback`, on the device and
   * on the sentinel alike: the point read for a truthy `property`, the whole
   * collection otherwise; a failed read reports `(err, null)`.
   */
  function StatusReply(docs: seq<StatusDoc>, property: Value, callback: CallbackId, readFails: bool): (c: Call)
    ensures c.callback == callback && |c.args| == 2
    ensures c.args[0] == Error <==> readFails
  {
    if readFails then Call(callback, [Error, Val(Null)])
    else if Truthy(property) then
      match FindStatus(docs, property)
      case None => Call(callback, [Val(Null), Val(Null)])
      case Some(d) => Call(callback, [Val(Null), Val(d.value)])
    else Call(callback, [Val(Null), Items(docs)])
  }

  /** Round trip: after `updateStatus(p, v)` has written, `getStatus(p)` answers `(null, v)`. */
  lemma StatusReplyAfterUpsert(docs: seq<StatusDoc>, p: Value, v: Value, newId: ObjectId, callback: CallbackId)
    requires Truthy(p) && Upsert(docs, p, v, newId).Some?
    ensures StatusReply(Upsert(docs, p, v, newId).value, p, callback, false) == Call(callback, [Val(Null), Val(v)])
  {
    UpsertThenFind(docs, p, v, newId);
  }

  /** A property without a document reads as `(null, null)`: no value and no error. */
  lemma StatusReplyMissing(docs: seq<StatusDoc>, p: Value, callback: CallbackId)
    requires Truthy(p) && CountProperty(docs, p) == 0
    ensures StatusReply(docs, p, callback, false) == Call(callback, [Val(Null), Val(Null)])
  {
  }

  /**
   * A falsy property name (`""`, `0`, `null`, ...) asks for every status
   * document, so a value stored under such a name cannot be read back by name.
   */
  lemma StatusReplyFalsyListsAll(docs: seq<StatusDoc>, p: Value, callback: CallbackId)
    requires !Truthy(p)
    ensures StatusReply(docs, p, callback, false) == Call(callback, [Val(Null), Items(docs)])
  {
  }
}
