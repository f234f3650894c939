/** The client event queue between the handlers: a tail queue under a mutex. */
module EventQueue {
  import opened Wrappers

  class Queue<T> {
    var events: seq<T>

    constructor ()
      ensures events == []
    {
      events := [];
    }

    /** enClientEventQueue */
    method Enqueue(ev: T)
      modifies this
      ensures events == old(events) + [ev]
    {
      events := events + [ev];
    }

    /** deClientEventQueue once it has been woken; None is the null pointer. */
    method Dequeue() returns (ev: Option<T>)
      modifies this
      ensures old(events) == [] ==> ev == None && events == []
      ensures old(events) != [] ==> ev == Some(old(events)[0]) && events == old(events)[1..]
    {
      if events == [] {
        ev := None;
      } else {
        ev := Some(events[0]);
        events := events[1..];
      }
    }

    predicate IsEmpty()
      reads this
    {
      events == []
    }

    /** The loop of destroy_client_event_queue. */
    method Drain() returns (deleted: seq<T>)
      modifies this
      ensures events == [] && deleted == old(events)
    {
      deleted := [];
      while !IsEmpty()
        invariant deleted + events == old(events)
        decreases |events|
      {
        var ev := Dequeue();
        deleted := deleted + [ev.value];
      }
    }
  }

  // ---------- first in, first out, nothing lost ----------

  datatype Op<T> = En(ev: T) | De

  /** The queue after the operations, in the order in which they take the mutex. */
  function Contents<T>(ops: seq<Op<T>>): seq<T> {
    if ops == [] then []
    else
      var q := Contents(ops[..|ops| - 1]);
      match ops[|ops| - 1]
      case En(ev) => q + [ev]
      case De => if q == [] then q else q[1..]
  }

  function Entered<T>(ops: seq<Op<T>>): seq<T> {
    if ops == [] then []
    else Entered(ops[..|ops| - 1]) + match ops[|ops| - 1] case En(ev) => [ev] case De => []
  }

  /** What the dequeues answered, null pointers left out. */
  function Left<T>(ops: seq<Op<T>>): seq<T> {
    if ops == [] then []
    else
      var q := Contents(ops[..|ops| - 1]);
      Left(ops[..|ops| - 1]) + if ops[|ops| - 1].De? && q != [] then [q[0]] else []
  }

  /** Events leave in the order in which they entered, and every event that entered has either left once
      or is still queued. */
  lemma {:induction false} FifoAndConserved<T>(ops: seq<Op<T>>)
    ensures Left(ops) + Contents(ops) == Entered(ops)
  {
    if ops != [] {
      FifoAndConserved(ops[..|ops| - 1]);
    }
  }
}
