/**
 * The event dispatcher (src/events/eventDispatcher.cc): one ordered listener
 * collection per event type. Handling an event calls every listener of the
 * event's type, once per registration, in registration order. Listeners are
 * identified by ids; handling returns the ids called, in call order.
 */
module EventDispatchers {
  import opened Events

  type ListenerId = nat

  /** A registration: the type and the listener registered for it. */
  datatype Registration = Registration(eventType: EventType, listener: ListenerId)

  /**
   * Reference definition: the listeners a log of registrations leaves on
   * type `t`, in log order.
   */
  function ListenersFor(log: seq<Registration>, t: EventType): (r: seq<ListenerId>)
    ensures |r| <= |log|
  {
    if log == [] then []
    else
      var last := log[|log| - 1];
      ListenersFor(log[..|log| - 1], t) + (if last.eventType == t then [last.listener] else [])
  }

  /** How many entries of the log register `l` for `t`. */
  function CountRegistrations(log: seq<Registration>, t: EventType, l: ListenerId): nat
  {
    if log == [] then 0
    else
      var last := log[|log| - 1];
      CountRegistrations(log[..|log| - 1], t, l) + (if last == Registration(t, l) then 1 else 0)
  }

  /**
   * No de-duplication: a listener occurs in a type's collection once for
   * every time it was registered for that type, and a registration for
   * another type never adds to it.
   */
  lemma {:induction false} ListenersForCounts(log: seq<Registration>, t: EventType, l: ListenerId)
    ensures multiset(ListenersFor(log, t))[l] == CountRegistrations(log, t, l)
  {
    if log != [] {
      ListenersForCounts(log[..|log| - 1], t, l);
    }
  }

  class EventDispatcher {
    var listeners: map<EventType, seq<ListenerId>>

    /** Every type below EVENT_TYPE_COUNT gets its own empty collection, and no other type has one. */
    constructor ()
      ensures forall t: EventType :: t in listeners <==> t < EVENT_TYPE_COUNT
      ensures forall t | t in listeners :: listeners[t] == []
    {
      listeners := map[];
      new;
      var t: nat := UNDEF_EVENT;
      while t < EVENT_TYPE_COUNT
        invariant t <= EVENT_TYPE_COUNT
        invariant forall u: EventType :: u in listeners <==> u < t
        invariant forall u | u in listeners :: listeners[u] == []
      {
        listeners := listeners[t as EventType := []];
        t := t + 1;
      }
    }

    /**
     * `HandleEvent`: the listeners of the event's type, each called once per
     * registration, in registration order. The collection must exist; the
     * source dereferences a null collection for any other type.
     */
    method HandleEvent(e: Event) returns (invoked: seq<ListenerId>)
      requires e.eventType in listeners
      ensures invoked == listeners[e.eventType]
    {
      var collection := listeners[e.eventType];
      invoked := [];
      var i := 0;
      while i < |collection|
        invariant 0 <= i <= |collection|
        invariant invoked == collection[..i]
      {
        invoked := invoked + [collection[i]];
        assert collection[..i + 1] == collection[..i] + [collection[i]];
        i := i + 1;
      }
      assert collection[..|collection|] == collection;
    }

    /** `AddEventListener`: appends to type `t`'s collection; every other collection is unchanged. */
    method AddEventListener(t: EventType, listener: ListenerId)
      requires t in listeners
      modifies this
      ensures listeners == old(listeners)[t := old(listeners)[t] + [listener]]
      ensures forall u | u in listeners && u != t :: listeners[u] == old(listeners)[u]
    {
      listeners := listeners[t := listeners[t] + [listener]];
    }

    /** `eventListeners[t]->collection.clear()`, as the game states do it directly. */
    method ClearListeners(t: EventType)
      requires t in listeners
      modifies this
      ensures listeners == old(listeners)[t := []]
    {
      listeners := listeners[t := []];
    }
  }

  /**
   * A fresh dispatcher fed the registrations of `log` calls, for an event of
   * type `t`, exactly the listeners the reference definition gives: every
   * registration for `t`, in order, duplicates included.
   */
  method Replay(log: seq<Registration>, e: Event) returns (invoked: seq<ListenerId>)
    requires forall i | 0 <= i < |log| :: log[i].eventType < EVENT_TYPE_COUNT
    requires e.eventType < EVENT_TYPE_COUNT
    ensures invoked == ListenersFor(log, e.eventType)
  {
    var d := new EventDispatcher();
    var i := 0;
    while i < |log|
      invariant 0 <= i <= |log|
      invariant forall u: EventType :: u in d.listeners <==> u < EVENT_TYPE_COUNT
      invariant forall u | u in d.listeners :: d.listeners[u] == ListenersFor(log[..i], u)
    {
      d.AddEventListener(log[i].eventType, log[i].listener);
      assert log[..i + 1][..i] == log[..i];
      i := i + 1;
    }
    assert log[..|log|] == log;
    invoked := d.HandleEvent(e);
  }
}
