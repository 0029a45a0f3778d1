/**
 * The event queue (src/events/eventQueue.cc): a first-in first-out queue of
 * events kept in a vector, taken from the front and added at the back.
 */
module EventQueues {
  import opened Events
  import opened Wrappers

  class EventQueue {
    var events: seq<Event>

    /** A new queue is empty. */
    constructor ()
      ensures events == []
    {
      events := [];
    }

    /**
     * `GetEvent`: nothing (null) from an empty queue, which stays as it is;
     * otherwise the oldest event, which leaves the queue.
     */
    method GetEvent() returns (e: Option<Event>)
      modifies this
      ensures old(events) == [] ==> e.None? && events == []
      ensures old(events) != [] ==> e == Some(old(events)[0]) && events == old(events)[1..]
      ensures e.Some? ==> [e.value] + events == old(events)
    {
      if |events| <= 0 {
        return None;
      }
      e := Some(events[0]);
      events := events[1..];
    }

    /** `AddEvent`: the event is queued behind every event already there. */
    method AddEvent(newEvent: Event)
      modifies this
      ensures events == old(events) + [newEvent]
    {
      events := events + [newEvent];
    }

    /** `GetEventCount`: the number of queued events. */
    method GetEventCount() returns (n: nat)
      ensures n == |events|
    {
      n := |events|;
    }
  }

  /**
   * First in, first out: events added to a queue that already holds `pending`
   * come out after the pending ones, in the order they were added, and the
   * queue is then empty.
   */
  method FifoOrder(pending: seq<Event>, added: seq<Event>) returns (out: seq<Event>, last: Option<Event>)
    ensures out == pending + added
    ensures last.None?
  {
    var q := new EventQueue();
    q.events := pending;
    var i := 0;
    while i < |added|
      invariant 0 <= i <= |added|
      invariant q.events == pending + added[..i]
    {
      q.AddEvent(added[i]);
      assert added[..i + 1] == added[..i] + [added[i]];
      i := i + 1;
    }
    assert added[..|added|] == added;
    out := [];
    while q.events != []
      invariant out + q.events == pending + added
      decreases |q.events|
    {
      var e := q.GetEvent();
      out := out + [e.value];
    }
    last := q.GetEvent();
  }
}
