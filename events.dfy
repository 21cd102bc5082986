/**
 * The in-process routing table of an `events.EventEmitter`: for each channel
 * name, the listeners registered on it in registration order.
 */
module Events {

  class Emitter<L> {
    var channels: map<string, seq<L>>

    constructor ()
      ensures channels == map[]
    {
      channels := map[];
    }

    /** The listeners of `channel`, oldest first; none for a channel never used. */
    function Listeners(channel: string): seq<L>
      reads this
    {
      if channel in channels then channels[channel] else []
    }

    /** `on(channel, listener)`: appends, keeping every earlier listener of every channel. */
    method On(channel: string, listener: L)
      modifies this
      ensures channels == old(channels)[channel := old(Listeners(channel)) + [listener]]
      ensures Listeners(channel) == old(Listeners(channel)) + [listener]
      ensures forall c :: c != channel ==> Listeners(c) == old(Listeners(c))
    {
      channels := channels[channel := Listeners(channel) + [listener]];
    }

    /**
     * `emit(channel, ...)`: every listener registered on `channel` is called, in
     * registration order, each once. Listeners stay registered. The result is
     * the sequence of listeners called.
     */
    method Emit(channel: string) returns (called: seq<L>)
      ensures |called| == |Listeners(channel)|
      ensures forall i :: 0 <= i < |called| ==> called[i] == Listeners(channel)[i]
    {
      var registered := Listeners(channel);
      called := [];
      var i := 0;
      while i < |registered|
        invariant 0 <= i <= |registered|
        invariant called == registered[..i]
      {
        called := called + [registered[i]];
        i := i + 1;
      }
    }
  }
}
