/**
 * One pass of `_PromiseWorkerThread.run`, split at the point where the
 * task runs: `Begin` checks the stop event, dequeues and stamps the
 * start; `Finish` stores the outcome, calls the notify callback,
 * stamps the completion and acknowledges the queue. `Escape` is the
 * other way a pass can end: the task raises an exception that escapes
 * `except Exception`, and the thread dies. Threads become the free
 * choice of which worker takes the next step.
 */
module Worker {
  import opened Basics
  import opened Promises
  import opened Pool

  /** The state after worker `w` has taken the head of the queue at instant `now`. */
  function Take(k: Keeper, w: nat, now: Instant): (k': Keeper)
    requires w < |k.workers| && |k.queue| > 0 && k.queue[0] in k.promises
  {
    var id := k.queue[0];
    k.(queue := k.queue[1..],
       workers := k.workers[w := Busy(id)],
       promises := k.promises[id := SetStartedOn(k.promises[id], now)])
  }

  lemma TakeKeepsQueue(k: Keeper, w: nat, now: Instant)
    requires w < |k.workers| && |k.queue| > 0
    requires QueueIsWaiting(k) && StrictlyIncreasing(k.queue)
    ensures QueueIsWaiting(Take(k, w, now)) && StrictlyIncreasing(Take(k, w, now).queue)
  {}

  lemma TakeKeepsWorkers(k: Keeper, w: nat, now: Instant)
    requires w < |k.workers| && k.workers[w].Idle? && |k.queue| > 0
    requires QueueIsWaiting(k) && WorkersHoldRunning(k) && HeldDistinct(k.workers)
    ensures WorkersHoldRunning(Take(k, w, now)) && HeldDistinct(Take(k, w, now).workers)
    ensures |Held(Take(k, w, now).workers)| == |Held(k.workers)| + 1
  {
    var id := k.queue[0];
    var k' := Take(k, w, now);
    assert k.promises[id].Status() == Waiting;
    assert id !in Held(k.workers) && id !in k.abandoned;
    HeldAfterTake(k.workers, w, id);
    forall i, j | 0 <= i < |k'.workers| && 0 <= j < |k'.workers| && i != j
                  && !k'.workers[i].Idle? && !k'.workers[j].Idle?
      ensures k'.workers[i].id != k'.workers[j].id
    {
      if i == w {
        assert k.workers[j].id in Held(k.workers);
      } else if j == w {
        assert k.workers[i].id in Held(k.workers);
      }
    }
  }

  lemma TakeKeepsOrder(k: Keeper, w: nat, now: Instant)
    requires w < |k.workers| && |k.queue| > 0
    requires QueueIsWaiting(k) && StrictlyIncreasing(k.queue) && DequeuedInOrder(k)
    ensures DequeuedInOrder(Take(k, w, now))
  {}

  lemma TakeKeepsPromises(k: Keeper, w: nat, now: Instant)
    requires w < |k.workers| && |k.queue| > 0 && k.queue[0] in k.promises
    requires k.promises[k.queue[0]].Status() == Waiting
    requires IdsFresh(k) && AllWellFormed(k) && NotifiedOnce(k)
    ensures var k' := Take(k, w, now);
      IdsFresh(k') && AllWellFormed(k') && NotifiedOnce(k') && AllExtend(k, k')
  {}

  lemma TakeKeepsValid(k: Keeper, w: nat, now: Instant)
    requires Valid(k) && w < |k.workers| && k.workers[w].Idle? && |k.queue| > 0
    ensures Valid(Take(k, w, now)) && AllExtend(k, Take(k, w, now))
  {
    var id := k.queue[0];
    assert k.promises[id].Status() == Waiting;
    TakeKeepsPromises(k, w, now);
    TakeKeepsQueue(k, w, now);
    TakeKeepsWorkers(k, w, now);
    TakeKeepsOrder(k, w, now);
  }

  /**
   * The first half of a worker's pass: with the stop event clear and a
   * promise queued, worker `w` removes the head of the queue, which is
   * the oldest waiting promise, and stamps its start. Otherwise the pass
   * changes nothing (the thread exits, or polls an empty queue again).
   */
  function Begin(k: Keeper, w: nat, now: Instant): (k': Keeper)
    requires Valid(k) && w < |k.workers| && k.workers[w].Idle?
    ensures Valid(k') && AllExtend(k, k')
    ensures k'.numberThreads == k.numberThreads && k'.stopped == k.stopped
    ensures k'.unfinished == k.unfinished && k'.notifyLog == k.notifyLog && k'.nextId == k.nextId
    ensures k.stopped || |k.queue| == 0 ==> k' == k
    ensures !k.stopped && |k.queue| > 0 ==>
      var id := k.queue[0];
      && (forall x :: x in k.promises && k.promises[x].Status() == Waiting ==> id <= x)
      && [id] + k'.queue == k.queue
      && k'.workers == k.workers[w := Busy(id)]
      && k'.promises.Keys == k.promises.Keys
      && k'.promises[id].Status() == Running && k'.promises[id].startedOn == Some(now)
      && k'.promises[id].result.None? && k'.promises[id].exception.None?
      && (forall x :: x in k.promises && x != id ==> k'.promises[x] == k.promises[x])
  {
    if k.stopped || |k.queue| == 0 then k
    else
      TakeKeepsValid(k, w, now);
      HeadIsOldest(k);
      TakeWrites(k, w, now);
      Take(k, w, now)
  }

  /** What taking the head writes, and that it writes nothing else. */
  lemma TakeWrites(k: Keeper, w: nat, now: Instant)
    requires w < |k.workers| && |k.queue| > 0 && k.queue[0] in k.promises
    ensures var k' := Take(k, w, now);
      var id := k.queue[0];
      && k'.numberThreads == k.numberThreads && k'.stopped == k.stopped
      && k'.unfinished == k.unfinished && k'.notifyLog == k.notifyLog && k'.nextId == k.nextId
      && [id] + k'.queue == k.queue
      && k'.workers == k.workers[w := Busy(id)]
      && k'.promises.Keys == k.promises.Keys
      && k'.promises[id] == SetStartedOn(k.promises[id], now)
      && (forall x :: x in k.promises && x != id ==> k'.promises[x] == k.promises[x])
  {}

  /** The head of the queue is the oldest waiting promise. */
  lemma HeadIsOldest(k: Keeper)
    requires QueueIsWaiting(k) && StrictlyIncreasing(k.queue) && |k.queue| > 0
    ensures forall x :: x in k.promises && k.promises[x].Status() == Waiting ==> k.queue[0] <= x
  {
    forall x | x in k.promises && k.promises[x].Status() == Waiting
      ensures k.queue[0] <= x
    {
      var i :| 0 <= i < |k.queue| && k.queue[i] == x;
    }
  }

  /**
   * How one executing task ends: what it did, whether its notify callback
   * raised, and when; or, when `escapes` holds, that it raised an exception
   * `except Exception` does not catch, which kills its thread (the other
   * fields are then unused).
   */
  datatype Completion = Completion(outcome: Outcome, notifyRaises: bool, escapes: bool, now: Instant)

  /** What `Finish` leaves behind, and the promise as the notify callback saw it. */
  datatype FinishResult = FinishResult(keeper: Keeper, notified: Option<Promise>)

  /** Worker `w` is executing a promise that is running and counted as unfinished. */
  predicate Executing(k: Keeper, w: nat)
  {
    && w < |k.workers| && k.workers[w].Busy? && k.workers[w].id in k.promises && k.unfinished > 0
    && k.promises[k.workers[w].id].Status() == Running
    && k.promises[k.workers[w].id].result.None? && k.promises[k.workers[w].id].exception.None?
  }

  /** The state after worker `w` has stored `outcome`, run notify and stamped completion at `now`. */
  function Complete(k: Keeper, w: nat, outcome: Outcome, now: Instant): (k': Keeper)
    requires Executing(k, w)
  {
    var id := k.workers[w].id;
    var p := k.promises[id];
    k.(workers := k.workers[w := Idle],
       promises := k.promises[id := SetCompletedOn(Execute(p, outcome), now)],
       unfinished := k.unfinished - 1,
       notifyLog := if p.notify.Some? then k.notifyLog + [id] else k.notifyLog)
  }

  lemma CompleteKeepsWorkers(k: Keeper, w: nat, outcome: Outcome, now: Instant)
    requires Valid(k) && Executing(k, w)
    ensures var k' := Complete(k, w, outcome, now);
      && WorkersHoldRunning(k') && HeldDistinct(k'.workers)
      && |Held(k'.workers)| + 1 == |Held(k.workers)|
  {
    assert k.workers[w].id in Held(k.workers);
    assert k.workers[w].id !in k.abandoned;
    HeldAfterRelease(k.workers, w);
  }

  lemma CompleteKeepsNotified(k: Keeper, w: nat, outcome: Outcome, now: Instant)
    requires Valid(k) && Executing(k, w)
    ensures NotifiedOnce(Complete(k, w, outcome, now))
  {
    var id := k.workers[w].id;
    var k' := Complete(k, w, outcome, now);
    assert id in Held(k.workers);
    assert k.promises[id].Status() == Running;
    assert id !in k.notifyLog;
    forall x | x in k'.notifyLog
      ensures x in k'.promises && k'.promises[x].IsReady() && k'.promises[x].notify.Some?
    {
      if x != id {
        assert x in k.notifyLog;
      }
    }
    forall i, j | 0 <= i < j < |k'.notifyLog|
      ensures k'.notifyLog[i] != k'.notifyLog[j]
    {
      if j == |k.notifyLog| {
        assert k.notifyLog[i] in k.notifyLog;
      }
    }
  }

  /** The promise a busy worker holds is a running one, and the queue counts it as unfinished. */
  lemma HeldIsRunning(k: Keeper, w: nat)
    requires Valid(k) && w < |k.workers| && k.workers[w].Busy?
    ensures k.workers[w].id in Held(k.workers) && Executing(k, w)
    ensures k.workers[w].id !in k.notifyLog
  {
    assert k.workers[w].id in Held(k.workers);
  }

  lemma CompleteKeepsQueue(k: Keeper, w: nat, outcome: Outcome, now: Instant)
    requires Executing(k, w)
    requires AllWellFormed(k) && QueueIsWaiting(k) && DequeuedInOrder(k) && IdsFresh(k)
    ensures var k' := Complete(k, w, outcome, now);
      AllWellFormed(k') && QueueIsWaiting(k') && DequeuedInOrder(k') && IdsFresh(k') && AllExtend(k, k')
  {}

  lemma CompleteKeepsValid(k: Keeper, w: nat, outcome: Outcome, now: Instant)
    requires Valid(k) && w < |k.workers| && k.workers[w].Busy?
    requires Executing(k, w)
    ensures Valid(Complete(k, w, outcome, now)) && AllExtend(k, Complete(k, w, outcome, now))
  {
    CompleteKeepsQueue(k, w, outcome, now);
    CompleteKeepsWorkers(k, w, outcome, now);
    CompleteKeepsNotified(k, w, outcome, now);
  }

  /** What completing the held promise writes, and that it writes nothing else. */
  lemma CompleteWrites(k: Keeper, w: nat, outcome: Outcome, now: Instant)
    requires Executing(k, w)
    ensures var k' := Complete(k, w, outcome, now);
      var id := k.workers[w].id;
      var q := k'.promises[id];
      && k'.queue == k.queue && k'.stopped == k.stopped
      && k'.numberThreads == k.numberThreads && k'.nextId == k.nextId
      && k'.workers == k.workers[w := Idle]
      && k'.unfinished + 1 == k.unfinished
      && k'.promises.Keys == k.promises.Keys
      && (forall x :: x in k.promises && x != id ==> k'.promises[x] == k.promises[x])
      && q == SetCompletedOn(Execute(k.promises[id], outcome), now)
      && (q.notify.Some? ==> k'.notifyLog == k.notifyLog + [id])
      && (q.notify.None? ==> k'.notifyLog == k.notifyLog)
  {}

  /**
   * The second half of a worker's pass. The task's outcome lands in the
   * result or the exception, never both; the notify callback, if any,
   * is called once and sees the outcome but not yet the completion; its
   * failure is swallowed, so the completion is stamped either way; then
   * the worker is idle again and the queue is acknowledged.
   */
  function Finish(k: Keeper, w: nat, outcome: Outcome, notifyRaises: bool, now: Instant): (r: FinishResult)
    requires Valid(k) && w < |k.workers| && k.workers[w].Busy?
    ensures Valid(r.keeper) && AllExtend(k, r.keeper)
    ensures r.keeper.queue == k.queue && r.keeper.stopped == k.stopped
    ensures r.keeper.numberThreads == k.numberThreads && r.keeper.nextId == k.nextId
    ensures r.keeper.workers == k.workers[w := Idle]
    ensures r.keeper.unfinished + 1 == k.unfinished
    ensures r.keeper.promises.Keys == k.promises.Keys
    ensures forall x :: x in k.promises && x != k.workers[w].id ==> r.keeper.promises[x] == k.promises[x]
    ensures
      var id := k.workers[w].id;
      var q := r.keeper.promises[id];
      && k.promises[id].Status() == Running
      && q.Status() == Completed && q.completedOn == Some(now) && q.startedOn == k.promises[id].startedOn
      && (outcome.Returned? ==> q.result == Some(outcome.value) && q.exception.None?)
      && (outcome.Raised? ==> q.exception == Some(outcome.error) && q.result.None?)
      && id !in k.notifyLog
      && (r.notified.Some? <==> q.notify.Some?)
      && (q.notify.Some? ==> r.keeper.notifyLog == k.notifyLog + [id])
      && (q.notify.None? ==> r.keeper.notifyLog == k.notifyLog)
      && (r.notified.Some? ==>
            var seen := r.notified.value;
            && !seen.IsReady() && seen.startedOn == q.startedOn
            && seen.result == q.result && seen.exception == q.exception)
  {
    HeldIsRunning(k, w);
    var executed := Execute(k.promises[k.workers[w].id], outcome);
    var notified := if executed.notify.Some? then Some(executed) else None;
    CompleteKeepsValid(k, w, outcome, now);
    CompleteWrites(k, w, outcome, now);
    FinishResult(Complete(k, w, outcome, now), notified)
  }

  /** Whether the notify callback raises makes no difference to the pool. */
  lemma NotifyFailureSwallowed(k: Keeper, w: nat, outcome: Outcome, now: Instant)
    requires Valid(k) && w < |k.workers| && k.workers[w].Busy?
    ensures Finish(k, w, outcome, true, now) == Finish(k, w, outcome, false, now)
  {}

  /** `k` with the thread of busy worker `w` dead on its promise. */
  function Kill(k: Keeper, w: nat): (k': Keeper)
    requires w < |k.workers| && k.workers[w].Busy?
  {
    k.(workers := k.workers[w := Dead(k.workers[w].id)])
  }

  /**
   * The other end of a pass: the task raises an exception that is not an
   * `Exception` (a `SystemExit`, say), so `except Exception` lets it
   * through and the thread dies. Nothing is stored, notify is not called,
   * completion is not stamped and the queue is not acknowledged; the
   * promise stays running and the dead thread stays in the thread list,
   * so the pool still counts as running.
   */
  function Escape(k: Keeper, w: nat): (k': Keeper)
    requires Valid(k) && w < |k.workers| && k.workers[w].Busy?
    ensures Valid(k') && AllExtend(k, k')
    ensures k'.workers == k.workers[w := Dead(k.workers[w].id)]
    ensures k'.promises == k.promises && k'.queue == k.queue && k'.unfinished == k.unfinished
    ensures k'.notifyLog == k.notifyLog && k'.abandoned == k.abandoned && k'.stopped == k.stopped
    ensures k'.numberThreads == k.numberThreads && k'.nextId == k.nextId
    ensures IsRunning(k') && k'.promises[k.workers[w].id].Status() == Running
  {
    HeldIsRunning(k, w);
    HeldAfterDeath(k.workers, w);
    Kill(k, w)
  }
}
