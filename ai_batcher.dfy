/** The batch dispatcher (app/services/ai_batcher.py): it buffers telemetry
    records, moves the whole buffer out as one batch when flushed, and runs each
    dispatched batch through the analyzer with up to three attempts.

    Scheduling is abstracted: every method below is one atomic step, and the
    background loop is modelled by one of its iterations (BatchLoopStep). */
module Batcher {

  /** All batches, concatenated in dispatch order. */
  function Flatten<T>(batches: seq<seq<T>>): seq<T>
  {
    if |batches| == 0 then [] else batches[0] + Flatten(batches[1..])
  }

  /** Dispatching one more batch appends exactly its records to the concatenation. */
  lemma {:induction false} FlattenAppend<T>(batches: seq<seq<T>>, batch: seq<T>)
    ensures Flatten(batches + [batch]) == Flatten(batches) + batch
    decreases |batches|
  {
    if |batches| == 0 {
      assert batches + [batch] == [batch];
      assert [batch][1..] == [];
    } else {
      assert (batches + [batch])[1..] == batches[1..] + [batch];
      FlattenAppend(batches[1..], batch);
    }
  }

  /** The number of records in the concatenation is the sum of the batch sizes. */
  function TotalSize<T>(batches: seq<seq<T>>): nat
  {
    if |batches| == 0 then 0 else |batches[0]| + TotalSize(batches[1..])
  }

  lemma {:induction false} FlattenSize<T>(batches: seq<seq<T>>)
    ensures |Flatten(batches)| == TotalSize(batches)
    decreases |batches|
  {
    if |batches| != 0 {
      FlattenSize(batches[1..]);
    }
  }

  /** Number of attempts AsyncRetrying makes: stop_after_attempt(3). */
  const MaxAttempts: nat := 3

  /** How retrying one batch ends: how many times the analyzer was called, and
      whether the last call returned normally. */
  datatype RetryResult = RetryResult(attempts: nat, succeeded: bool)

  /** Retrying from attempt `n` (counted from 0) on, where `succeeds(i)` says
      whether attempt `i` of the analyzer returns without raising. */
  function RetryFrom(succeeds: nat -> bool, n: nat): (r: RetryResult)
    requires n < MaxAttempts
    ensures n < r.attempts <= MaxAttempts
    ensures forall i :: n <= i < r.attempts - 1 ==> !succeeds(i)
    ensures r.succeeded <==> succeeds(r.attempts - 1)
    ensures !r.succeeded ==> r.attempts == MaxAttempts
    decreases MaxAttempts - n
  {
    if succeeds(n) then RetryResult(n + 1, true)
    else if n + 1 == MaxAttempts then RetryResult(MaxAttempts, false)
    else RetryFrom(succeeds, n + 1)
  }

  function Retry(succeeds: nat -> bool): RetryResult
  {
    RetryFrom(succeeds, 0)
  }

  /** The analyzer is called at least once and at most three times. */
  lemma RetryBounds(succeeds: nat -> bool)
    ensures 1 <= Retry(succeeds).attempts <= MaxAttempts
  {
  }

  /** A success after k < 3 failures takes exactly k + 1 calls and ends successfully. */
  lemma SuccessAfterFailures(succeeds: nat -> bool, k: nat)
    requires k < MaxAttempts
    requires forall i :: 0 <= i < k ==> !succeeds(i)
    requires succeeds(k)
    ensures Retry(succeeds) == RetryResult(k + 1, true)
  {
  }

  /** When every attempt fails, the analyzer is called exactly three times and the batch fails. */
  lemma AllAttemptsFail(succeeds: nat -> bool)
    requires forall i :: 0 <= i < MaxAttempts ==> !succeeds(i)
    ensures Retry(succeeds) == RetryResult(MaxAttempts, false)
  {
  }

  /** A retry result that has the three characteristic properties is the one Retry computes. */
  lemma RetryUnique(succeeds: nat -> bool, attempts: nat, ok: bool)
    requires 1 <= attempts <= MaxAttempts
    requires forall i :: 0 <= i < attempts - 1 ==> !succeeds(i)
    requires ok <==> succeeds(attempts - 1)
    requires !ok ==> attempts == MaxAttempts
    ensures Retry(succeeds) == RetryResult(attempts, ok)
  {
    if ok {
      SuccessAfterFailures(succeeds, attempts - 1);
    } else {
      AllAttemptsFail(succeeds);
    }
  }

  /** The batcher. `buffer` is the record buffer, `running` the `_running` flag,
      `flushEvent` whether the flush event is set, `loopActive` whether the
      background loop task is alive and `loopTasks` how many loop tasks were
      created. The Prometheus metrics appear as `calls` (ai_calls_total),
      `errors` (ai_errors_total) and `queueSize` (the batch queue size gauge).
      The ghost fields record every record ever enqueued and every batch ever
      dispatched. */
  class AiBatcher<T> {
    const batchSize: int
    const timeoutSeconds: real
    const maxConcurrency: int

    var buffer: seq<T>
    var running: bool
    var flushEvent: bool
    var loopActive: bool
    var loopTasks: nat
    var calls: nat
    var errors: nat
    var queueSize: int

    ghost var enqueued: seq<T>
    ghost var dispatched: seq<seq<T>>

    /** The object invariant. Its first conjunct is conservation: the
        dispatched batches in dispatch order, followed by the buffer, are
        exactly the enqueued records in order. */
    ghost predicate Valid()
      reads this
    {
      && Flatten(dispatched) + buffer == enqueued
      && (forall k :: 0 <= k < |dispatched| ==> |dispatched[k]| > 0)
      && queueSize == |buffer|
      && loopActive == running
    }

    /** The defaults are those of the source: 16 records, 12 seconds, 2 concurrent dispatches. */
    constructor (batchSize: int := 16, timeoutSeconds: real := 12.0, maxConcurrency: int := 2)
      ensures Valid()
      ensures this.batchSize == batchSize && this.timeoutSeconds == timeoutSeconds
      ensures this.maxConcurrency == maxConcurrency
      ensures buffer == [] && !running && !flushEvent && !loopActive
      ensures loopTasks == 0 && calls == 0 && errors == 0
      ensures enqueued == [] && dispatched == []
    {
      this.batchSize := batchSize;
      this.timeoutSeconds := timeoutSeconds;
      this.maxConcurrency := maxConcurrency;
      buffer := [];
      running := false;
      flushEvent := false;
      loopActive := false;
      loopTasks := 0;
      calls := 0;
      errors := 0;
      queueSize := 0;
      enqueued := [];
      dispatched := [];
    }

    /** Starting a running batcher changes nothing; otherwise it becomes
        running and one new background loop task is created. */
    method Start()
      requires Valid()
      modifies this`running, this`loopActive, this`loopTasks
      ensures Valid()
      ensures running && loopActive
      ensures old(running) ==> loopTasks == old(loopTasks)
      ensures !old(running) ==> loopTasks == old(loopTasks) + 1
    {
      if running {
        return;
      }
      running := true;
      loopActive := true;
      loopTasks := loopTasks + 1;
    }

    /** Appends the record to the buffer, updates the gauge, and sets the
        flush event once the buffer holds at least batchSize records. */
    method Enqueue(record: T)
      requires Valid()
      modifies this`buffer, this`queueSize, this`flushEvent, this`enqueued
      ensures Valid()
      ensures buffer == old(buffer) + [record]
      ensures enqueued == old(enqueued) + [record]
      ensures |buffer| >= batchSize ==> flushEvent
      ensures |buffer| < batchSize ==> flushEvent == old(flushEvent)
    {
      buffer := buffer + [record];
      enqueued := enqueued + [record];
      queueSize := |buffer|;
      if |buffer| >= batchSize {
        flushEvent := true;
      }
    }

    /** Moves the whole buffer out as one dispatched batch and clears the flush
        event. On an empty buffer nothing is dispatched. */
    method Flush()
      requires Valid()
      modifies this`buffer, this`queueSize, this`flushEvent, this`dispatched
      ensures Valid()
      ensures buffer == [] && !flushEvent
      ensures old(buffer) == [] ==> dispatched == old(dispatched)
      ensures old(buffer) != [] ==> dispatched == old(dispatched) + [old(buffer)]
    {
      if |buffer| == 0 {
        flushEvent := false;
        return;
      }
      var batch := buffer;
      buffer := [];
      queueSize := 0;
      flushEvent := false;
      FlattenAppend(dispatched, batch);
      dispatched := dispatched + [batch];
    }

    /** Stopping a stopped batcher changes nothing. Otherwise the batcher stops,
        the flush event is set to wake the loop, which then exits, and a final
        flush drains the buffer: afterwards every enqueued record has been
        dispatched. Whether the loop's wake-up pass or the final flush moves
        the buffer, the old buffer is dispatched as exactly one batch. */
    method Stop()
      requires Valid()
      modifies this`running, this`loopActive, this`flushEvent, this`buffer, this`queueSize, this`dispatched
      ensures Valid()
      ensures old(running) ==> !running && !loopActive && buffer == [] && !flushEvent
      ensures old(running) ==> Flatten(dispatched) == enqueued
      ensures old(running) ==> TotalSize(dispatched) == |enqueued|
      ensures old(running) && old(buffer) == [] ==> dispatched == old(dispatched)
      ensures old(running) && old(buffer) != [] ==> dispatched == old(dispatched) + [old(buffer)]
      ensures !old(running) ==> running == old(running) && loopActive == old(loopActive)
      ensures !old(running) ==> flushEvent == old(flushEvent) && buffer == old(buffer)
      ensures !old(running) ==> dispatched == old(dispatched)
    {
      if !running {
        return;
      }
      running := false;
      flushEvent := true;
      loopActive := false;
      Flush();
      FlattenSize(dispatched);
    }

    /** One iteration of the background loop: once the flush event is set or
        the timeout expires (either way), flush. A loop that has observed
        `running == false` does nothing more. */
    method BatchLoopStep()
      requires Valid()
      modifies this`buffer, this`queueSize, this`flushEvent, this`dispatched
      ensures Valid()
      ensures old(running) ==> buffer == [] && !flushEvent
      ensures old(running) && old(buffer) != [] ==> dispatched == old(dispatched) + [old(buffer)]
      ensures !(old(running) && old(buffer) != []) ==> dispatched == old(dispatched)
      ensures !old(running) ==> buffer == old(buffer) && flushEvent == old(flushEvent)
    {
      if running {
        Flush();
      }
    }

    /** Runs one dispatched batch through the analyzer with up to three
        attempts; `analyzer(batch, i)` says whether attempt `i` on the batch
        returns without raising. One call is counted per batch, and one error
        when every attempt failed. */
    method RunBatchWithRetries(batch: seq<T>, analyzer: (seq<T>, nat) -> bool)
      returns (attempts: nat, ok: bool)
      modifies this`calls, this`errors
      ensures RetryResult(attempts, ok) == Retry((i: nat) => analyzer(batch, i))
      ensures calls == old(calls) + 1
      ensures errors == old(errors) + (if ok then 0 else 1)
    {
      calls := calls + 1;
      attempts := 0;
      ok := false;
      while !ok && attempts < MaxAttempts
        invariant 0 <= attempts <= MaxAttempts
        invariant ok ==> attempts > 0 && analyzer(batch, attempts - 1)
        invariant forall i :: 0 <= i < attempts - 1 ==> !analyzer(batch, i)
        invariant !ok && attempts > 0 ==> !analyzer(batch, attempts - 1)
      {
        ok := analyzer(batch, attempts);
        attempts := attempts + 1;
      }
      RetryUnique((i: nat) => analyzer(batch, i), attempts, ok);
      if !ok {
        errors := errors + 1;
      }
    }
  }

  /** A batcher built without arguments flushes at 16 records, waits at most
      12 seconds and allows 2 concurrent dispatches. */
  method DefaultConfiguration() returns (batchSize: int, timeoutSeconds: real, maxConcurrency: int)
    ensures batchSize == 16 && timeoutSeconds == 12.0 && maxConcurrency == 2
  {
    var b := new AiBatcher<int>();
    batchSize, timeoutSeconds, maxConcurrency := b.batchSize, b.timeoutSeconds, b.maxConcurrency;
  }
}
