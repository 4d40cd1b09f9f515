/**
 * The state of a `PromiseKeeper` together with the promises it has
 * handed out, and the invariant every reachable state keeps.
 */
module Pool {
  import opened Basics
  import opened Promises

  /** Promises are identified by the order in which they were submitted. */
  type PromiseId = nat

  /**
   * A worker thread is polling the queue, executing one promise, or dead:
   * its task raised an exception that `except Exception` does not catch
   * (`SystemExit`, say), which ended the thread with the promise still
   * running.
   */
  datatype WorkerState = Idle | Busy(id: PromiseId) | Dead(id: PromiseId)

  datatype Keeper = Keeper(
    numberThreads: int,
    /** The `_threads` list: empty exactly when the pool is not running. */
    workers: seq<WorkerState>,
    /** The stop event shared by the current workers. */
    stopped: bool,
    /** The FIFO work queue. */
    queue: seq<PromiseId>,
    /** The queue's count of items put but not yet acknowledged by `task_done`. */
    unfinished: nat,
    promises: map<PromiseId, Promise>,
    nextId: PromiseId,
    /** Every invocation of a notify callback, in order. */
    notifyLog: seq<PromiseId>,
    /**
     * Promises whose worker died and has since been dropped by `stop`:
     * they stay running and unacknowledged for good.
     */
    abandoned: set<PromiseId>)

  /** `is_running`: the thread list is not empty; a dead thread still counts. */
  function IsRunning(k: Keeper): (running: bool)
    ensures !running ==> Held(k.workers) == {}
    ensures (exists i :: 0 <= i < |k.workers| && !k.workers[i].Idle?) ==> running
  {
    |k.workers| > 0
  }

  /** The promises the workers hold: the ones they execute, and the ones their thread died on. */
  function Held(ws: seq<WorkerState>): (ids: set<PromiseId>)
  {
    set i | 0 <= i < |ws| && !ws[i].Idle? :: ws[i].id
  }

  /** No promise is held by two workers. */
  predicate HeldDistinct(ws: seq<WorkerState>)
  {
    forall i, j :: 0 <= i < |ws| && 0 <= j < |ws| && i != j && !ws[i].Idle? && !ws[j].Idle?
                   ==> ws[i].id != ws[j].id
  }

  predicate StrictlyIncreasing(q: seq<PromiseId>)
  {
    forall i, j :: 0 <= i < j < |q| ==> q[i] < q[j]
  }

  predicate NoDuplicates(s: seq<PromiseId>)
  {
    forall i, j :: 0 <= i < j < |s| ==> s[i] != s[j]
  }

  predicate IdsFresh(k: Keeper)
  {
    forall id :: id in k.promises ==> id < k.nextId
  }

  predicate AllWellFormed(k: Keeper)
  {
    forall id :: id in k.promises ==> k.promises[id].WellFormed()
  }

  /**
   * The queue holds exactly the waiting promises. This holds between
   * worker steps: in `promise_keeper.py` a worker dequeues a promise and stamps
   * its start under two separate locks, and in between the dequeued
   * promise is not queued yet still waiting.
   */
  ghost predicate QueueIsWaiting(k: Keeper)
  {
    && (forall i :: 0 <= i < |k.queue| ==> k.queue[i] in k.promises)
    && (forall id :: id in k.promises ==> (k.promises[id].Status() == Waiting <==> id in k.queue))
  }

  /** The running promises are exactly those the workers hold and those abandoned, which are apart. */
  ghost predicate WorkersHoldRunning(k: Keeper)
  {
    && (forall id :: id in Held(k.workers) ==> id in k.promises)
    && (forall id :: id in k.abandoned ==> id in k.promises)
    && Held(k.workers) !! k.abandoned
    && (forall id :: id in k.promises ==>
                     (k.promises[id].Status() == Running <==> id in Held(k.workers) || id in k.abandoned))
  }

  /** A promise leaves the queue only once every earlier-submitted promise has left it. */
  ghost predicate DequeuedInOrder(k: Keeper)
  {
    forall a, b :: a in k.promises && b in k.promises && a < b && b !in k.queue ==> a !in k.queue
  }

  /** The notify log names each completed promise with a callback, once. */
  ghost predicate NotifiedOnce(k: Keeper)
  {
    && NoDuplicates(k.notifyLog)
    && (forall id :: id in k.notifyLog ==>
                     id in k.promises && k.promises[id].IsReady() && k.promises[id].notify.Some?)
    && (forall id :: id in k.promises && k.promises[id].IsReady() && k.promises[id].notify.Some?
                     ==> id in k.notifyLog)
  }

  /**
   * The invariant of every reachable pool:
   * ids are fresh below `nextId`; every stored promise is well formed;
   * the queue holds exactly the waiting promises, oldest first; the
   * workers, each holding a different one, and the abandoned set hold
   * exactly the running ones; the queue's unfinished count is the
   * queued plus the running promises; promises leave the queue in
   * submission order; and the notify log names each completed promise
   * that has a callback, once.
   */
  ghost predicate Valid(k: Keeper)
  {
    && IdsFresh(k)
    && AllWellFormed(k)
    && QueueIsWaiting(k)
    && StrictlyIncreasing(k.queue)
    && WorkersHoldRunning(k)
    && HeldDistinct(k.workers)
    && k.unfinished == |k.queue| + |Held(k.workers)| + |k.abandoned|
    && DequeuedInOrder(k)
    && NotifiedOnce(k)
  }

  /** Every promise of `k` is still in `k'`, as a later snapshot of itself. */
  ghost predicate AllExtend(k: Keeper, k': Keeper)
  {
    forall id :: id in k.promises ==> id in k'.promises && Extends(k.promises[id], k'.promises[id])
  }

  /** Every promise of `k` that is still waiting is in `k'` unchanged. */
  ghost predicate WaitingUnchanged(k: Keeper, k': Keeper)
  {
    forall id :: id in k.promises && k.promises[id].Status() == Waiting
                 ==> id in k'.promises && k'.promises[id] == k.promises[id]
  }

  /** Being a later snapshot composes over whole pools. */
  lemma AllExtendTransitive(k0: Keeper, k1: Keeper, k2: Keeper)
    requires AllExtend(k0, k1) && AllExtend(k1, k2)
    ensures AllExtend(k0, k2)
  {
    forall id | id in k0.promises
      ensures id in k2.promises && Extends(k0.promises[id], k2.promises[id])
    {
      ExtendsTransitive(k0.promises[id], k1.promises[id], k2.promises[id]);
    }
  }

  /** Giving an idle worker a promise adds exactly that promise to the held set. */
  lemma HeldAfterTake(ws: seq<WorkerState>, w: nat, id: PromiseId)
    requires w < |ws| && ws[w].Idle?
    ensures Held(ws[w := Busy(id)]) == Held(ws) + {id}
  {
    var ws' := ws[w := Busy(id)];
    forall x | x in Held(ws) + {id}
      ensures x in Held(ws')
    {
      if x != id {
        var i :| 0 <= i < |ws| && !ws[i].Idle? && ws[i].id == x;
        assert ws'[i] == ws[i];
      } else {
        assert ws'[w].id == id;
      }
    }
  }

  /** Releasing a worker that holds a promise removes it from the held set, ids being distinct. */
  lemma HeldAfterRelease(ws: seq<WorkerState>, w: nat)
    requires w < |ws| && !ws[w].Idle? && HeldDistinct(ws)
    ensures Held(ws[w := Idle]) == Held(ws) - {ws[w].id}
    ensures HeldDistinct(ws[w := Idle])
  {
    var ws' := ws[w := Idle];
    forall x | x in Held(ws) - {ws[w].id}
      ensures x in Held(ws')
    {
      var i :| 0 <= i < |ws| && !ws[i].Idle? && ws[i].id == x;
      assert i != w;
      assert ws'[i] == ws[i];
    }
  }

  /** A worker dying on its promise still holds it. */
  lemma HeldAfterDeath(ws: seq<WorkerState>, w: nat)
    requires w < |ws| && ws[w].Busy?
    ensures Held(ws[w := Dead(ws[w].id)]) == Held(ws)
    ensures HeldDistinct(ws) ==> HeldDistinct(ws[w := Dead(ws[w].id)])
  {
    var ws' := ws[w := Dead(ws[w].id)];
    forall x | x in Held(ws)
      ensures x in Held(ws')
    {
      var i :| 0 <= i < |ws| && !ws[i].Idle? && ws[i].id == x;
      assert !ws'[i].Idle? && ws'[i].id == x;
    }
    forall x | x in Held(ws')
      ensures x in Held(ws)
    {
      var i :| 0 <= i < |ws'| && !ws'[i].Idle? && ws'[i].id == x;
      assert !ws[i].Idle? && ws[i].id == x;
    }
  }

  /** With no worker thread at all, nothing is held. */
  lemma HeldOfIdle(ws: seq<WorkerState>)
    requires forall i :: 0 <= i < |ws| ==> ws[i].Idle?
    ensures Held(ws) == {}
  {}
}
