/**
 * The public surface of `PromiseKeeper`: construction, `submit`,
 * `start`, `stop` and `is_running`, as functions from one pool state to
 * the next or to the state error the call raises.
 */
module PromiseKeeper {
  import opened Basics
  import opened Promises
  import opened Pool
  import opened Worker

  /** A fresh pool: configured, not running, nothing queued. */
  function New(numberThreads: int): (k: Keeper)
    ensures Valid(k) && !IsRunning(k)
    ensures k.numberThreads == numberThreads
    ensures k.queue == [] && k.promises == map[] && k.unfinished == 0 && k.abandoned == {}
  {
    Keeper(numberThreads, [], false, [], 0, map[], 0, [], {})
  }

  /**
   * `submit`: a new waiting promise for the call is put at the tail of
   * the queue; nothing else changes, in particular the pool is not
   * started.
   */
  function Submit(k: Keeper, task: string, args: seq<Value>, kwargs: map<string, Value>,
                  notify: Option<string>): (r: (Keeper, PromiseId))
    requires IdsFresh(k)
    ensures var (k', id) := r;
      && id !in k.promises
      && k'.queue == k.queue + [id]
      && k'.promises.Keys == k.promises.Keys + {id}
      && (forall x :: x in k.promises ==> k'.promises[x] == k.promises[x])
      && k'.promises[id].task == task && k'.promises[id].args == args
      && k'.promises[id].kwargs == kwargs && k'.promises[id].notify == notify
      && k'.promises[id].Status() == Waiting
      && k'.promises[id].result.None? && k'.promises[id].exception.None?
      && k'.unfinished == k.unfinished + 1
      && k'.workers == k.workers && k'.stopped == k.stopped && k'.numberThreads == k.numberThreads
      && k'.notifyLog == k.notifyLog
      && (IsRunning(k') <==> IsRunning(k))
    ensures forall x :: x in k.promises ==> x < r.1
    ensures Valid(k) ==> Valid(r.0)
  {
    var p := NewPromise(task, args, kwargs, notify);
    EnqueueKeepsValid(k, p);
    (Enqueue(k, p), k.nextId)
  }

  /** The state after `p` has been registered under the next id and put at the tail of the queue. */
  function Enqueue(k: Keeper, p: Promise): (k': Keeper)
  {
    k.(queue := k.queue + [k.nextId],
       unfinished := k.unfinished + 1,
       promises := k.promises[k.nextId := p],
       nextId := k.nextId + 1)
  }

  lemma EnqueueKeepsQueue(k: Keeper, p: Promise)
    requires IdsFresh(k) && QueueIsWaiting(k) && StrictlyIncreasing(k.queue) && p.Status() == Waiting
    ensures QueueIsWaiting(Enqueue(k, p)) && StrictlyIncreasing(Enqueue(k, p).queue)
  {
    var k' := Enqueue(k, p);
    forall x | x in k'.promises
      ensures k'.promises[x].Status() == Waiting <==> x in k'.queue
    {
      if x != k.nextId {
        assert x in k.queue <==> x in k'.queue;
      }
    }
  }

  lemma EnqueueKeepsValid(k: Keeper, p: Promise)
    requires p.WellFormed() && p.Status() == Waiting
    ensures Valid(k) ==> Valid(Enqueue(k, p))
  {
    if Valid(k) {
      assert k.nextId !in Held(k.workers) && k.nextId !in k.abandoned;
      EnqueueKeepsQueue(k, p);
    }
  }

  /**
   * `start`: refused with the state error while running; otherwise a
   * fresh stop event and exactly `number_threads` idle workers (none
   * when it is zero or negative, so the pool then still is not running).
   */
  function Start(k: Keeper): (r: Result<Keeper, PoolError>)
    ensures IsRunning(k) <==> r.Err?
    ensures r.Err? ==> r.error == PromiseKeeperStateError(AlreadyRunning)
    ensures r.Ok? ==>
      var k' := r.value;
      && |k'.workers| == (if k.numberThreads > 0 then k.numberThreads else 0)
      && (forall i :: 0 <= i < |k'.workers| ==> k'.workers[i] == Idle)
      && !k'.stopped
      && (IsRunning(k') <==> k.numberThreads > 0)
      && k'.queue == k.queue && k'.promises == k.promises && k'.unfinished == k.unfinished
      && k'.notifyLog == k.notifyLog && k'.nextId == k.nextId && k'.numberThreads == k.numberThreads
    ensures r.Ok? && Valid(k) ==> Valid(r.value)
  {
    if IsRunning(k) then Err(PromiseKeeperStateError(AlreadyRunning))
    else
      var n := if k.numberThreads > 0 then k.numberThreads else 0;
      var k' := k.(workers := seq(n, _ => Idle), stopped := false);
      HeldOfIdle(k'.workers);
      Ok(k')
  }

  /**
   * The join of `stop`: from worker `i` on, every worker still executing
   * a promise finishes it with the completion `done` gives for it, unless
   * its thread is already dead or its task escapes during the join; then
   * the promise is abandoned, still running. Every worker is idle
   * afterwards.
   */
  function Drain(k: Keeper, i: nat, done: seq<Completion>): (k': Keeper)
    requires i <= |k.workers| && |done| == |k.workers|
    decreases |k.workers| - i
    ensures k'.queue == k.queue && k'.stopped == k.stopped
    ensures k'.numberThreads == k.numberThreads && k'.nextId == k.nextId
    ensures |k'.workers| == |k.workers|
  {
    if i == |k.workers| then k
    else Drain(JoinWorker(k, i, done[i]), i + 1, done)
  }

  /** After the join, the workers before `i` are as they were and the rest are idle. */
  lemma {:induction false} DrainLeavesIdle(k: Keeper, i: nat, done: seq<Completion>)
    requires i <= |k.workers| && |done| == |k.workers|
    decreases |k.workers| - i
    ensures var k' := Drain(k, i, done);
      && (forall j :: 0 <= j < i ==> k'.workers[j] == k.workers[j])
      && (forall j :: i <= j < |k'.workers| ==> k'.workers[j].Idle?)
  {
    if i < |k.workers| {
      var k1 := JoinWorker(k, i, done[i]);
      assert Drain(k, i, done) == Drain(k1, i + 1, done);
      DrainLeavesIdle(k1, i + 1, done);
      assert k1.workers[i] == Idle;
    }
  }

  /**
   * The join of worker `w` abandons its promise: the thread was already
   * dead, or the task it is executing escapes during the join.
   */
  predicate Abandons(w: WorkerState, c: Completion)
  {
    w.Dead? || (w.Busy? && c.escapes)
  }

  /**
   * Joining worker `i`: if it is executing a promise it finishes it with
   * completion `c`, as `Finish` does (the notify callback's failure is
   * swallowed, so `c.notifyRaises` changes nothing); if its thread has
   * died, or the task escapes and kills it now, the join returns without
   * completing the promise, which is abandoned.
   */
  function JoinWorker(k: Keeper, i: nat, c: Completion): (k': Keeper)
    requires i < |k.workers|
    ensures k'.queue == k.queue && k'.stopped == k.stopped
    ensures k'.numberThreads == k.numberThreads && k'.nextId == k.nextId
    ensures k'.workers == k.workers[i := Idle]
    ensures k'.abandoned == if Abandons(k.workers[i], c) then k.abandoned + {k.workers[i].id} else k.abandoned
    ensures Abandons(k.workers[i], c) ==> k'.promises == k.promises && k'.unfinished == k.unfinished
    ensures k'.promises.Keys == k.promises.Keys
    ensures forall x :: x in k.promises && !(k.workers[i].Busy? && x == k.workers[i].id) ==> k'.promises[x] == k.promises[x]
    ensures Executing(k, i) && !c.escapes ==>
      && k'.promises[k.workers[i].id] == SetCompletedOn(Execute(k.promises[k.workers[i].id], c.outcome), c.now)
      && k'.unfinished + 1 == k.unfinished
  {
    if Abandons(k.workers[i], c) then
      k.(workers := k.workers[i := Idle], abandoned := k.abandoned + {k.workers[i].id})
    else if Executing(k, i) then
      CompleteWrites(k, i, c.outcome, c.now);
      Complete(k, i, c.outcome, c.now)
    else k.(workers := k.workers[i := Idle])
  }

  lemma JoinWorkerKeepsValid(k: Keeper, i: nat, c: Completion)
    requires Valid(k) && i < |k.workers|
    ensures Follows(k, JoinWorker(k, i, c))
  {
    if Abandons(k.workers[i], c) {
      AbandonKeepsValid(k, i);
    } else if k.workers[i].Busy? {
      HeldIsRunning(k, i);
      CompleteKeepsValid(k, i, c.outcome, c.now);
      CompleteWrites(k, i, c.outcome, c.now);
    } else {
      assert k.workers[i := Idle] == k.workers;
    }
  }

  /** The join keeps the invariant, moves no promise back, and leaves waiting promises alone. */
  lemma {:induction false} DrainKeepsValid(k: Keeper, i: nat, done: seq<Completion>)
    requires Valid(k) && i <= |k.workers| && |done| == |k.workers|
    decreases |k.workers| - i
    ensures Follows(k, Drain(k, i, done))
  {
    if i < |k.workers| {
      var k1 := JoinWorker(k, i, done[i]);
      JoinWorkerKeepsValid(k, i, done[i]);
      DrainKeepsValid(k1, i + 1, done);
      DrainStep(k, i, done);
      FollowsTransitive(k, k1, Drain(k1, i + 1, done));
    }
  }

  /** `k'` is a valid later state of `k` that leaves its waiting promises alone. */
  ghost predicate Follows(k: Keeper, k': Keeper)
  {
    Valid(k') && AllExtend(k, k') && WaitingUnchanged(k, k')
  }

  lemma FollowsTransitive(k0: Keeper, k1: Keeper, k2: Keeper)
    requires Follows(k0, k1) && Follows(k1, k2)
    ensures Follows(k0, k2)
  {
    ChainExtends(k0, k1, k2);
  }

  /** One step of the join loop. */
  lemma DrainStep(k: Keeper, i: nat, done: seq<Completion>)
    requires i < |k.workers| && |done| == |k.workers|
    ensures Drain(k, i, done) == Drain(JoinWorker(k, i, done[i]), i + 1, done)
  {}

  /**
   * A task that escapes while the join waits for its worker ends the
   * same as one whose thread had died before the join began.
   */
  lemma {:induction false} DrainEscapeIsDeath(k: Keeper, w: nat, i: nat, done: seq<Completion>)
    requires |done| == |k.workers| && i <= w < |k.workers| && k.workers[w].Busy? && done[w].escapes
    decreases w - i
    ensures Drain(k, i, done) == Drain(Kill(k, w), i, done)
  {
    var kw := Kill(k, w);
    DrainStep(k, i, done);
    DrainStep(kw, i, done);
    if i == w {
      assert JoinWorker(k, i, done[i]) == JoinWorker(kw, i, done[i]);
    } else {
      var k1 := JoinWorker(k, i, done[i]);
      assert k1.workers[w] == k.workers[w];
      assert JoinWorker(kw, i, done[i]) == Kill(k1, w);
      DrainEscapeIsDeath(k1, w, i + 1, done);
    }
  }

  /** The join from worker `i` on leaves alone a promise no live worker from `i` on is executing. */
  lemma {:induction false} DrainUntouched(k: Keeper, i: nat, done: seq<Completion>, x: PromiseId)
    requires i <= |k.workers| && |done| == |k.workers| && x in k.promises
    requires forall m :: i <= m < |k.workers| && k.workers[m].Busy? ==> k.workers[m].id != x
    decreases |k.workers| - i
    ensures x in Drain(k, i, done).promises && Drain(k, i, done).promises[x] == k.promises[x]
  {
    if i < |k.workers| {
      var k1 := JoinWorker(k, i, done[i]);
      DrainStep(k, i, done);
      assert forall m :: i < m < |k.workers| ==> k1.workers[m] == k.workers[m];
      DrainUntouched(k1, i + 1, done, x);
    }
  }

  /**
   * The join from worker `i` on stores the outcome of the task busy
   * worker `j` is executing and stamps its completion, unless the task
   * escapes.
   */
  lemma {:induction false} DrainCompletes(k: Keeper, i: nat, done: seq<Completion>, j: nat)
    requires Valid(k) && |done| == |k.workers| && i <= j < |k.workers|
    requires k.workers[j].Busy? && !done[j].escapes
    decreases j - i
    ensures EndedAs(k, done[j], Drain(k, i, done), k.workers[j].id)
  {
    var k1 := JoinWorker(k, i, done[i]);
    DrainStep(k, i, done);
    if i == j {
      JoinCompletes(k, j, done[j]);
      DrainUntouched(k1, i + 1, done, k.workers[j].id);
    } else {
      JoinLeavesOther(k, i, done[i], j);
      DrainCompletes(k1, i + 1, done, j);
    }
  }

  /** Joining live worker `j` whose task does not escape completes its promise, which no later worker holds. */
  lemma JoinCompletes(k: Keeper, j: nat, c: Completion)
    requires Valid(k) && j < |k.workers| && k.workers[j].Busy? && !c.escapes
    ensures var k1 := JoinWorker(k, j, c);
      && EndedAs(k, c, k1, k.workers[j].id)
      && forall m :: j < m < |k1.workers| && k1.workers[m].Busy? ==> k1.workers[m].id != k.workers[j].id
  {}

  /** Joining worker `i` leaves valid state and another busy worker `j` and its promise as they were. */
  lemma JoinLeavesOther(k: Keeper, i: nat, c: Completion, j: nat)
    requires Valid(k) && i < j < |k.workers| && k.workers[j].Busy?
    ensures var k1 := JoinWorker(k, i, c);
      && Valid(k1) && k1.workers[j] == k.workers[j]
      && k.workers[j].id in k.promises && k1.promises[k.workers[j].id] == k.promises[k.workers[j].id]
  {
    JoinWorkerKeepsValid(k, i, c);
    HeldIsRunning(k, j);
  }

  /** Joining workers that hold no promise changes nothing. */
  lemma {:induction false} DrainIdle(k: Keeper, i: nat, done: seq<Completion>)
    requires i <= |k.workers| && |done| == |k.workers|
    requires forall j :: 0 <= j < |k.workers| ==> k.workers[j].Idle?
    decreases |k.workers| - i
    ensures Drain(k, i, done) == k
  {
    if i < |k.workers| {
      assert k.workers[i := Idle] == k.workers;
      assert JoinWorker(k, i, done[i]) == k;
      DrainIdle(k, i + 1, done);
    }
  }

  /** Abandoning a worker's promise moves it, still running, from the workers to the abandoned set. */
  lemma AbandonKeepsValid(k: Keeper, i: nat)
    requires Valid(k) && i < |k.workers| && !k.workers[i].Idle?
    ensures var k' := k.(workers := k.workers[i := Idle], abandoned := k.abandoned + {k.workers[i].id});
      Valid(k') && AllExtend(k, k') && WaitingUnchanged(k, k')
  {
    var id := k.workers[i].id;
    assert id in Held(k.workers);
    assert id !in k.abandoned;
    HeldAfterRelease(k.workers, i);
  }

  /** Later snapshots compose, and so does leaving waiting promises alone. */
  lemma ChainExtends(k0: Keeper, k1: Keeper, k2: Keeper)
    requires AllExtend(k0, k1) && AllExtend(k1, k2)
    requires WaitingUnchanged(k0, k1) && WaitingUnchanged(k1, k2)
    ensures AllExtend(k0, k2) && WaitingUnchanged(k0, k2)
  {
    AllExtendTransitive(k0, k1, k2);
  }

  /** The promises the join abandons from worker `i` on, given the completions `done`. */
  function AbandonedFrom(ws: seq<WorkerState>, done: seq<Completion>, i: nat): (ids: set<PromiseId>)
    requires |done| == |ws|
  {
    set j | i <= j < |ws| && Abandons(ws[j], done[j]) :: ws[j].id
  }

  /** Only the workers from `i + 1` on matter to `AbandonedFrom(ws, done, i + 1)`. */
  lemma AbandonedFromSkips(ws: seq<WorkerState>, done: seq<Completion>, i: nat, x: WorkerState)
    requires i < |ws| && |done| == |ws|
    ensures AbandonedFrom(ws[i := x], done, i + 1) == AbandonedFrom(ws, done, i + 1)
  {
    var ws' := ws[i := x];
    assert forall j :: i + 1 <= j < |ws| ==> ws'[j] == ws[j];
  }

  /**
   * The join abandons exactly the promises of the workers that were dead
   * or whose task escapes during the join.
   */
  lemma {:induction false} DrainAbandons(k: Keeper, i: nat, done: seq<Completion>)
    requires i <= |k.workers| && |done| == |k.workers|
    decreases |k.workers| - i
    ensures Drain(k, i, done).abandoned == k.abandoned + AbandonedFrom(k.workers, done, i)
  {
    if i < |k.workers| {
      var k1 := JoinWorker(k, i, done[i]);
      assert Drain(k, i, done) == Drain(k1, i + 1, done);
      DrainAbandons(k1, i + 1, done);
      AbandonedFromSkips(k.workers, done, i, Idle);
      assert AbandonedFrom(k.workers, done, i)
          == AbandonedFrom(k.workers, done, i + 1)
             + (if Abandons(k.workers[i], done[i]) then {k.workers[i].id} else {});
    } else {
      assert AbandonedFrom(k.workers, done, i) == {};
    }
  }

  /**
   * `stop`: refused with the state error unless running; otherwise the
   * stop event is set, every worker is joined and the worker list is
   * emptied. A promise a live worker was executing ends holding its
   * task's outcome and completion instant, unless its thread is already
   * dead or its task escapes during the join; then the promise is
   * abandoned, still running. Queued promises stay queued and untouched.
   */
  function Stop(k: Keeper, done: seq<Completion>): (r: Result<Keeper, PoolError>)
    requires Valid(k) && |done| == |k.workers|
    ensures !IsRunning(k) <==> r.Err?
    ensures r.Err? ==> r.error == PromiseKeeperStateError(NotRunning)
    ensures r.Ok? ==>
      var k' := r.value;
      && Valid(k') && !IsRunning(k') && k'.stopped
      && k'.queue == k.queue && k'.unfinished == |k.queue| + |k'.abandoned|
      && k'.abandoned == k.abandoned + AbandonedFrom(k.workers, done, 0)
      && (forall id :: id in k'.promises ==> (k'.promises[id].Status() == Running <==> id in k'.abandoned))
      && BusyEnded(k, done, k')
      && AllExtend(k, k') && WaitingUnchanged(k, k')
      && k'.nextId == k.nextId && k'.numberThreads == k.numberThreads
  {
    if !IsRunning(k) then Err(PromiseKeeperStateError(NotRunning))
    else
      HaltKeepsValid(k, done);
      HaltEndsBusy(k, done);
      Ok(Halt(k, done))
  }

  /** Set the stop event, join every worker, and empty the worker list. */
  function Halt(k: Keeper, done: seq<Completion>): (k': Keeper)
    requires |done| == |k.workers|
  {
    Drain(k.(stopped := true), 0, done).(workers := [])
  }

  lemma HaltKeepsValid(k: Keeper, done: seq<Completion>)
    requires Valid(k) && |done| == |k.workers|
    ensures var k' := Halt(k, done);
      && Valid(k') && k'.stopped && k'.workers == []
      && k'.queue == k.queue && k'.unfinished == |k.queue| + |k'.abandoned|
      && k'.abandoned == k.abandoned + AbandonedFrom(k.workers, done, 0)
      && (forall id :: id in k'.promises ==> (k'.promises[id].Status() == Running <==> id in k'.abandoned))
      && AllExtend(k, k') && WaitingUnchanged(k, k')
      && k'.nextId == k.nextId && k'.numberThreads == k.numberThreads
  {
    var halted := k.(stopped := true);
    StopEventKeepsValid(k);
    var d := Drain(halted, 0, done);
    DrainKeepsValid(halted, 0, done);
    DrainLeavesIdle(halted, 0, done);
    DrainAbandons(halted, 0, done);
    ClearIdleWorkers(d);
    ExtendsIgnoreWorkers(k, halted, d);
  }

  /**
   * A promise a live worker was executing ends with its task's outcome
   * and completion instant, unless its task escapes during the join: then
   * it is abandoned, unchanged and running.
   */
  lemma HaltEndsBusy(k: Keeper, done: seq<Completion>)
    requires Valid(k) && |done| == |k.workers|
    ensures BusyEnded(k, done, Halt(k, done))
  {
    var k' := Halt(k, done);
    HaltKeepsValid(k, done);
    BusyEnds(k, done, k');
    StopEventKeepsValid(k);
    forall j | 0 <= j < |k.workers| && k.workers[j].Busy?
      ensures EndedAs(k, done[j], k', k.workers[j].id)
    {
      if !done[j].escapes {
        DrainCompletes(k.(stopped := true), 0, done, j);
      }
    }
  }

  /** How the promises the live workers of `k` executed stand in `k'`, after a join with `done`. */
  ghost predicate BusyEnded(k: Keeper, done: seq<Completion>, k': Keeper)
    requires |done| == |k.workers|
  {
    forall j :: 0 <= j < |k.workers| && k.workers[j].Busy? ==> EndedAs(k, done[j], k', k.workers[j].id)
  }

  /**
   * Promise `id` of `k` ended in `k'` as completion `c` says: holding the
   * task's outcome and completed at `c.now`, or, when the task escapes,
   * abandoned and unchanged.
   */
  ghost predicate EndedAs(k: Keeper, c: Completion, k': Keeper, id: PromiseId)
  {
    && id in k.promises && id in k'.promises
    && (!c.escapes ==>
          && k.promises[id].result.None? && k.promises[id].exception.None?
          && k'.promises[id] == SetCompletedOn(Execute(k.promises[id], c.outcome), c.now))
    && (c.escapes ==> id in k'.abandoned && k'.promises[id] == k.promises[id])
  }

  /**
   * If afterwards exactly the abandoned promises run and the abandoned
   * set grew by the join's abandoned promises alone, a live worker's
   * promise whose task escapes is abandoned and unchanged.
   */
  lemma BusyEnds(k: Keeper, done: seq<Completion>, k': Keeper)
    requires |done| == |k.workers|
    requires WorkersHoldRunning(k) && HeldDistinct(k.workers) && AllWellFormed(k) && AllWellFormed(k')
    requires AllExtend(k, k')
    requires k'.abandoned == k.abandoned + AbandonedFrom(k.workers, done, 0)
    requires forall id :: id in k'.promises ==> (k'.promises[id].Status() == Running <==> id in k'.abandoned)
    ensures forall j :: 0 <= j < |k.workers| && k.workers[j].Busy? && done[j].escapes ==>
      EndedAs(k, done[j], k', k.workers[j].id)
  {
    forall j | 0 <= j < |k.workers| && k.workers[j].Busy? && done[j].escapes
      ensures EndedAs(k, done[j], k', k.workers[j].id)
    {
      var id := k.workers[j].id;
      assert id in Held(k.workers);
      assert k.promises[id].Status() == Running;
      assert id in AbandonedFrom(k.workers, done, 0);
    }
  }

  /** Setting the stop event alone changes no promise, worker or count. */
  lemma StopEventKeepsValid(k: Keeper)
    requires Valid(k)
    ensures Valid(k.(stopped := true))
  {}

  /** Which snapshots extend which depends on the promises alone. */
  lemma ExtendsIgnoreWorkers(k: Keeper, halted: Keeper, d: Keeper)
    requires halted.promises == k.promises
    requires AllExtend(halted, d) && WaitingUnchanged(halted, d)
    ensures AllExtend(k, d.(workers := [])) && WaitingUnchanged(k, d.(workers := []))
  {}

  /** Once every worker is idle, emptying the worker list keeps the invariant; only abandoned promises are Running. */
  lemma ClearIdleWorkers(k: Keeper)
    requires Valid(k) && forall i :: 0 <= i < |k.workers| ==> k.workers[i].Idle?
    ensures Valid(k.(workers := []))
    ensures forall id :: id in k.promises ==> (k.promises[id].Status() == Running <==> id in k.abandoned)
    ensures k.unfinished == |k.queue| + |k.abandoned|
  {
    HeldOfIdle(k.workers);
    assert Held([]) == {};
  }
}
