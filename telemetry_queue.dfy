/** The in-memory FIFO of ingested telemetry packets (app/core/telemetry_queue.py). */
module Queue {
  import opened Wrappers

  /** A FIFO over a deque; `queue` is the deque's contents, front first. */
  class TelemetryQueue<T> {
    var queue: seq<T>

    constructor ()
      ensures queue == []
    {
      queue := [];
    }

    /** Appends a packet at the back. */
    method Enqueue(packet: T)
      modifies this
      ensures queue == old(queue) + [packet]
      ensures |queue| == |old(queue)| + 1
    {
      queue := queue + [packet];
    }

    /** Removes and returns the front packet; None, and no change, on an empty queue. */
    method Dequeue() returns (packet: Option<T>)
      modifies this
      ensures old(queue) == [] ==> packet == None && queue == old(queue)
      ensures old(queue) != [] ==> packet == Some(old(queue)[0]) && queue == old(queue)[1..]
      ensures old(queue) == (if packet.Some? then [packet.value] else []) + queue
    {
      if |queue| == 0 {
        return None;
      }
      packet := Some(queue[0]);
      queue := queue[1..];
    }

    method Size() returns (n: nat)
      ensures n == |queue|
    {
      n := |queue|;
    }

    method IsEmpty() returns (empty: bool)
      ensures empty <==> queue == []
    {
      empty := |queue| == 0;
    }
  }

  /** One packet through a fresh queue: it comes back out, and the queue is empty again. */
  method EnqueueThenDequeue<T>(packet: T)
    returns (sizeAfterEnqueue: nat, emptyAfterEnqueue: bool, got: Option<T>, sizeAfterDequeue: nat)
    ensures sizeAfterEnqueue == 1 && !emptyAfterEnqueue
    ensures got == Some(packet)
    ensures sizeAfterDequeue == 0
  {
    var q := new TelemetryQueue<T>();
    q.Enqueue(packet);
    sizeAfterEnqueue := q.Size();
    emptyAfterEnqueue := q.IsEmpty();
    got := q.Dequeue();
    sizeAfterDequeue := q.Size();
  }

  /** A fresh queue is empty and dequeuing from it yields None. */
  method FreshQueueDequeue<T>() returns (got: Option<T>, empty: bool)
    ensures got == None
    ensures empty
  {
    var q := new TelemetryQueue<T>();
    got := q.Dequeue();
    empty := q.IsEmpty();
  }

  /** Packets come out in the order they went in: two packets enqueued into a
      fresh queue are dequeued first-in first-out. */
  method TwoPacketsInOrder<T>(first: T, second: T) returns (a: Option<T>, b: Option<T>, c: Option<T>)
    ensures a == Some(first) && b == Some(second) && c == None
  {
    var q := new TelemetryQueue<T>();
    q.Enqueue(first);
    q.Enqueue(second);
    a := q.Dequeue();
    b := q.Dequeue();
    c := q.Dequeue();
  }
}
