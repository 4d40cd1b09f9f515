/**
 * The whole library as one state machine: the caller's calls and the
 * workers' half-passes are actions, and any interleaving of them is a
 * run. Properties of every reachable pool are stated over runs from a
 * fresh pool.
 */
module Machine {
  import opened Basics
  import opened Promises
  import opened Pool
  import opened Worker
  import opened PromiseKeeper

  datatype Action =
    | SubmitCall(task: string, args: seq<Value>, kwargs: map<string, Value>, notify: Option<string>)
    | StartCall
    | StopCall(done: seq<Completion>)
    | WorkerBegin(w: nat, now: Instant)
    | WorkerFinish(w: nat, c: Completion)

  /**
   * One action. A call that raises the state error leaves the pool as it
   * was (the error goes to the caller); a worker step that is not
   * enabled (no such worker, it is in the other half of its pass, or
   * its thread is dead) does nothing.
   */
  function Next(k: Keeper, a: Action): (k': Keeper)
    requires Valid(k)
    ensures Valid(k') && AllExtend(k, k')
    ensures k'.nextId >= k.nextId
  {
    match a
    case SubmitCall(task, args, kwargs, notify) => Submit(k, task, args, kwargs, notify).0
    case StartCall =>
      (match Start(k)
       case Ok(k') => k'
       case Err(_) => k)
    case StopCall(done) =>
      if |done| != |k.workers| then k
      else
        (match Stop(k, done)
         case Ok(k') => k'
         case Err(_) => k)
    case WorkerBegin(w, now) =>
      if w < |k.workers| && k.workers[w].Idle? then Begin(k, w, now) else k
    case WorkerFinish(w, c) =>
      if w < |k.workers| && k.workers[w].Busy? then
        if c.escapes then Escape(k, w) else Finish(k, w, c.outcome, c.notifyRaises, c.now).keeper
      else k
  }

  /** Any interleaving keeps the invariant, and no promise ever moves back or rewrites a field. */
  function Run(k: Keeper, acts: seq<Action>): (k': Keeper)
    requires Valid(k)
    decreases |acts|
    ensures Valid(k') && AllExtend(k, k')
  {
    if |acts| == 0 then k
    else
      var k1 := Next(k, acts[0]);
      var k2 := Run(k1, acts[1..]);
      AllExtendTransitive(k, k1, k2);
      k2
  }

  /**
   * In every reachable pool, each promise is well formed: ready implies
   * started, and a ready promise has exactly one of result and exception;
   * its execution time is absent exactly until it is ready.
   */
  lemma ReachablePromises(n: int, acts: seq<Action>)
    ensures var k := Run(New(n), acts);
      forall id :: id in k.promises ==>
        && (k.promises[id].IsReady() ==> k.promises[id].HasStarted())
        && (k.promises[id].IsReady() ==> k.promises[id].result.Some? != k.promises[id].exception.Some?)
        && ExecutionTime(k.promises[id]).Ok?
        && (ExecutionTime(k.promises[id]).value.None? <==> !k.promises[id].IsReady())
  {
    var k := Run(New(n), acts);
    forall id | id in k.promises
      ensures ExecutionTime(k.promises[id]).Ok?
      ensures ExecutionTime(k.promises[id]).value.None? <==> !k.promises[id].IsReady()
    {
      ExecutionTimeOfWellFormed(k.promises[id]);
    }
  }

  /** In every reachable pool promises leave the queue in the order they were submitted. */
  lemma ReachableDequeuedInOrder(n: int, acts: seq<Action>)
    ensures var k := Run(New(n), acts);
      forall a, b :: a in k.promises && b in k.promises && a < b && b !in k.queue ==> a !in k.queue
  {}

  /**
   * In every reachable pool the queue's unfinished count is the number
   * queued plus the number held by workers (executing, or dead on them)
   * plus the number abandoned; when the pool is not running, no worker
   * holds anything.
   */
  lemma ReachableUnfinished(n: int, acts: seq<Action>)
    ensures var k := Run(New(n), acts);
      k.unfinished == |k.queue| + |Held(k.workers)| + |k.abandoned|
      && (!IsRunning(k) ==> k.unfinished == |k.queue| + |k.abandoned|)
  {}

  /** Starting a pool that `start` has just made running raises the state error. */
  lemma StartTwiceFails(k: Keeper)
    requires k.numberThreads > 0 && Start(k).Ok?
    ensures Start(Start(k).value) == Err(PromiseKeeperStateError(AlreadyRunning))
  {}

  /** With zero (or negative) threads `start` succeeds but leaves the pool not running, so it can be repeated. */
  lemma StartWithoutThreads(k: Keeper)
    requires k.numberThreads <= 0 && !IsRunning(k)
    ensures Start(k).Ok? && !IsRunning(Start(k).value) && Start(Start(k).value).Ok?
  {}

  /**
   * Starting an idle pool with at least one thread and stopping it
   * before any worker step gives back the same pool, only with the stop
   * event set: no promise, queue entry or count is touched.
   */
  lemma StartThenStop(k: Keeper, done: seq<Completion>)
    requires Valid(k) && !IsRunning(k) && k.numberThreads > 0 && |done| == k.numberThreads
    ensures Stop(Start(k).value, done) == Ok(k.(stopped := true))
  {
    DrainIdle(Start(k).value.(stopped := true), 0, done);
  }

  /** Stopping a pool that `stop` has just stopped raises the state error. */
  lemma StopTwiceFails(k: Keeper, done: seq<Completion>)
    requires Valid(k) && |done| == |k.workers| && Stop(k, done).Ok?
    ensures Stop(Stop(k, done).value, []) == Err(PromiseKeeperStateError(NotRunning))
  {}

  /**
   * A task whose exception escapes its worker: the promise is never
   * completed. Stopping the pool afterwards abandons it unchanged and
   * still running, and it stays counted as unfinished although it is no
   * longer queued.
   */
  lemma EscapeThenStop(k: Keeper, w: nat, done: seq<Completion>)
    requires Valid(k) && w < |k.workers| && k.workers[w].Busy? && |done| == |k.workers|
    ensures var id := k.workers[w].id;
      var r := Stop(Escape(k, w), done);
      && r.Ok?
      && id in r.value.abandoned && id !in r.value.queue
      && r.value.promises[id] == k.promises[id] && r.value.promises[id].Status() == Running
      && r.value.unfinished > |r.value.queue|
  {
    var id := k.workers[w].id;
    var k1 := Escape(k, w);
    assert k1.workers[w] == Dead(id);
    assert id in AbandonedFrom(k1.workers, done, 0);
  }

  /**
   * Stopping while a task escapes during the join ends as stopping right
   * after that task's escape.
   */
  lemma EscapeDuringStop(k: Keeper, w: nat, done: seq<Completion>)
    requires Valid(k) && w < |k.workers| && k.workers[w].Busy? && |done| == |k.workers| && done[w].escapes
    ensures Stop(k, done) == Stop(Escape(k, w), done)
  {
    var halted := k.(stopped := true);
    assert Escape(k, w).(stopped := true) == Kill(halted, w);
    DrainEscapeIsDeath(halted, w, 0, done);
  }

  /**
   * The life of one promise: submitted to a fresh pool with at least one
   * thread, started, begun and finished by worker 0, it is ready with the
   * task's outcome, its execution time is the difference of the two
   * instants, and the queue is drained and acknowledged.
   */
  lemma SubmitStartRunFinish(n: int, task: string, args: seq<Value>, kwargs: map<string, Value>,
                             notify: Option<string>, outcome: Outcome, notifyRaises: bool,
                             t0: Instant, t1: Instant)
    requires n > 0
    ensures
      var (k1, id) := Submit(New(n), task, args, kwargs, notify);
      var k2 := Start(k1).value;
      var k3 := Begin(k2, 0, t0);
      var k4 := Finish(k3, 0, outcome, notifyRaises, t1).keeper;
      && k3.workers[0] == Busy(id) && k3.promises[id].Status() == Running
      && k4.promises[id].IsReady()
      && (outcome.Returned? ==> k4.promises[id].result == Some(outcome.value) && k4.promises[id].exception.None?)
      && (outcome.Raised? ==> k4.promises[id].exception == Some(outcome.error) && k4.promises[id].result.None?)
      && ExecutionTime(k4.promises[id]) == Ok(Some(t1 - t0))
      && k4.queue == [] && k4.unfinished == 0 && IsRunning(k4)
      && (notify.Some? <==> k4.notifyLog == [id])
  {
    var (k1, id) := Submit(New(n), task, args, kwargs, notify);
    RunOnly(Start(k1).value, id, outcome, notifyRaises, t0, t1);
  }

  /** A started pool whose queue holds one promise runs it to completion on worker 0. */
  lemma RunOnly(k: Keeper, id: PromiseId, outcome: Outcome, notifyRaises: bool, t0: Instant, t1: Instant)
    requires Valid(k) && !k.stopped && |k.workers| > 0 && k.workers[0].Idle?
    requires k.queue == [id] && k.unfinished == 1 && k.notifyLog == []
    ensures var k3 := Begin(k, 0, t0);
      var k4 := Finish(k3, 0, outcome, notifyRaises, t1).keeper;
      && k3.workers[0] == Busy(id) && k3.promises[id].Status() == Running
      && k4.promises[id].IsReady()
      && (outcome.Returned? ==> k4.promises[id].result == Some(outcome.value) && k4.promises[id].exception.None?)
      && (outcome.Raised? ==> k4.promises[id].exception == Some(outcome.error) && k4.promises[id].result.None?)
      && ExecutionTime(k4.promises[id]) == Ok(Some(t1 - t0))
      && k4.queue == [] && k4.unfinished == 0 && IsRunning(k4)
      && (k.promises[id].notify.Some? <==> k4.notifyLog == [id])
  {}
}
