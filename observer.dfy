/** The Observer pattern: an event emitter keeping, per event name, the ordered
    list of its listeners. Listeners are opaque identifiers; `emit` reports the
    calls it makes instead of running listener code. */
module Observers {
  import opened Common

  /** A registered listener function, by identity. */
  type ListenerId = nat

  /** One listener invocation: which listener, with which arguments. */
  datatype Invocation = Invocation(listener: ListenerId, args: seq<string>)

  class Emitter {
    var listeners: map<string, seq<ListenerId>>

    constructor ()
      ensures listeners == map[]
    {
      listeners := map[];
    }

    /** The listeners of an event in registration order; none when it has no entry. */
    function ListenersOf(event: string): seq<ListenerId>
      reads this
    {
      if event in listeners then listeners[event] else []
    }

    /** `on`: appends the listener to the event's list, creating the list on first
        use; every other event keeps its list. */
    method On(event: string, fn: ListenerId)
      modifies this
      ensures listeners == old(listeners)[event := old(ListenersOf(event)) + [fn]]
      ensures ListenersOf(event) == old(ListenersOf(event)) + [fn]
      ensures forall e :: e != event ==> ListenersOf(e) == old(ListenersOf(e))
    {
      var arr := if event in listeners then listeners[event] else [];
      arr := arr + [fn];
      listeners := listeners[event := arr];
    }

    /** `emit`: calls each listener of the event once, in registration order, with
        the same arguments; the map is left as it was. */
    method Emit(event: string, args: seq<string>) returns (calls: seq<Invocation>)
      ensures |calls| == |ListenersOf(event)|
      ensures forall i :: 0 <= i < |calls| ==> calls[i] == Invocation(ListenersOf(event)[i], args)
    {
      var arr := if event in listeners then listeners[event] else [];
      calls := [];
      for i := 0 to |arr|
        invariant |calls| == i
        invariant forall j :: 0 <= j < i ==> calls[j] == Invocation(arr[j], args)
      {
        calls := calls + [Invocation(arr[i], args)];
      }
    }
  }

  /** The same listener registered twice is called twice. */
  method DemoDuplicate() returns (calls: seq<Invocation>)
    ensures calls == [Invocation(7, ["x"]), Invocation(7, ["x"])]
  {
    var e := new Emitter();
    e.On("msg", 7);
    e.On("msg", 7);
    calls := e.Emit("msg", ["x"]);
  }

  /** Emitting an event nobody listens to calls nothing and adds no entry. */
  method DemoSilent() returns (calls: seq<Invocation>, keys: set<string>)
    ensures calls == [] && keys == {"msg"}
  {
    var e := new Emitter();
    e.On("msg", 1);
    calls := e.Emit("other", ["x"]);
    keys := e.listeners.Keys;
  }

  /** The demo: one listener on "msg", called once with the sender and the text. */
  method DemoObserver() returns (calls: seq<Invocation>)
    ensures calls == [Invocation(0, ["alice", "hello!"])]
  {
    var e := new Emitter();
    e.On("msg", 0);
    calls := e.Emit("msg", ["alice", "hello!"]);
  }
}
