/**
 * The background executor behind the tracker, with time abstracted away:
 * it holds the tasks still pending, in the order they were submitted, and
 * a shut-down flag. Which pending task runs next is up to the caller.
 */
module Scheduling {

  class Scheduler<T> {
    var pending: seq<T>
    var shutdown: bool

    /** A fresh single-threaded executor: nothing pending, accepting work. */
    constructor ()
      ensures pending == [] && !shutdown
    {
      pending := [];
      shutdown := false;
    }

    /**
     * Submits a task. A shut-down executor rejects it (Java throws
     * RejectedExecutionException) and nothing is queued.
     */
    method Schedule(task: T) returns (accepted: bool)
      modifies this
      ensures shutdown == old(shutdown)
      ensures accepted == !shutdown
      ensures pending == if accepted then old(pending) + [task] else old(pending)
    {
      accepted := !shutdown;
      if accepted {
        pending := pending + [task];
      }
    }

    /** Stops the executor and cancels every task that has not started; those are returned. */
    method ShutdownNow() returns (cancelled: seq<T>)
      modifies this
      ensures shutdown && pending == []
      ensures cancelled == old(pending)
    {
      cancelled := pending;
      pending := [];
      shutdown := true;
    }

    /** The worker thread dequeues a one-shot task in order to run it. */
    method Take(i: nat) returns (task: T)
      requires i < |pending|
      modifies this
      ensures shutdown == old(shutdown)
      ensures task == old(pending[i])
      ensures pending == old(pending[..i] + pending[i + 1..])
    {
      task := pending[i];
      pending := pending[..i] + pending[i + 1..];
    }
  }
}
