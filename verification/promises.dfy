/**
 * The `Promise` record: one unit of work and its eventual outcome, with
 * the observers a polling caller uses and the setters the worker uses.
 * In `promise_keeper.py` every field access is taken separately under the
 * promise's lock; the model groups the worker's writes into the two
 * steps of a worker pass, so a promise is observed only between them.
 */
module Promises {
  import opened Basics

  /** Any Python object a task receives or returns. */
  type Value = int
  /** The exception a task raised, by its class name. */
  type Error = string
  /** Wall-clock instants, abstracted; nothing orders them. */
  type Instant = nat

  /** What calling the task with its arguments did: the call itself is foreign code. */
  datatype Outcome = Returned(value: Value) | Raised(error: Error)

  /** Waiting, Running and Completed, as the promise's printed form distinguishes them. */
  datatype Status = Waiting | Running | Completed

  function Rank(s: Status): (r: nat)
  {
    match s
    case Waiting => 0
    case Running => 1
    case Completed => 2
  }

  datatype Promise = Promise(
    task: string,
    args: seq<Value>,
    kwargs: map<string, Value>,
    notify: Option<string>,
    result: Option<Value>,
    exception: Option<Error>,
    startedOn: Option<Instant>,
    completedOn: Option<Instant>)
  {
    predicate IsReady() { completedOn.Some? }

    predicate HasStarted() { startedOn.Some? }

    function Status(): Status
    {
      if IsReady() then Completed
      else if HasStarted() then Running
      else Waiting
    }

    /**
     * The shape every stored promise keeps between worker steps:
     * completion comes after the start, an unfinished promise has
     * neither result nor exception, and a completed one has exactly one
     * of them. While the worker is between its writes (storing the
     * outcome, calling notify, stamping completion) the library shows
     * an unfinished promise with an outcome, which is not of this shape.
     */
    predicate WellFormed()
    {
      && (IsReady() ==> HasStarted())
      && (!IsReady() ==> result.None? && exception.None?)
      && (IsReady() ==> result.Some? != exception.Some?)
    }
  }

  /**
   * `get_execution_time`: nothing before completion, otherwise the
   * difference of the two instants (which may be negative: the clock is
   * not assumed monotone). Subtracting from a missing start raises, as
   * `datetime - None` does.
   */
  function ExecutionTime(p: Promise): (r: Result<Option<int>, PoolError>)
    ensures r == Ok(None) <==> !p.IsReady()
    ensures r.Err? <==> p.IsReady() && !p.HasStarted()
    ensures r.Err? ==> r.error == TypeError
    ensures r.Ok? && r.value.Some? ==>
              && p.completedOn.Some? && p.startedOn.Some?
              && p.startedOn.value + r.value.value == p.completedOn.value
  {
    if !p.IsReady() then Ok(None)
    else if p.startedOn.None? then Err(TypeError)
    else Ok(Some(p.completedOn.value - p.startedOn.value))
  }

  /** The constructor: a waiting promise holding the call and the callback. */
  function NewPromise(task: string, args: seq<Value>, kwargs: map<string, Value>,
                      notify: Option<string>): (p: Promise)
    ensures p.task == task && p.args == args && p.kwargs == kwargs && p.notify == notify
    ensures p.Status() == Waiting && p.WellFormed()
    ensures p.result.None? && p.exception.None?
  {
    Promise(task, args, kwargs, notify, None, None, None, None)
  }

  /**
   * Storing the task's outcome: a return lands in the result, a raise in
   * the exception; nothing else is written.
   */
  function Execute(p: Promise, outcome: Outcome): (q: Promise)
    requires p.result.None? && p.exception.None?
    ensures outcome.Returned? ==> q.result == Some(outcome.value) && q.exception.None?
    ensures outcome.Raised? ==> q.exception == Some(outcome.error) && q.result.None?
    ensures q.result.Some? != q.exception.Some?
    ensures q.(result := None, exception := None) == p
  {
    match outcome
    case Returned(v) => SetResult(p, v)
    case Raised(e) => SetException(p, e)
  }

  /** `_set_started_on`: writes the start and nothing else. */
  function SetStartedOn(p: Promise, t: Instant): (q: Promise)
    ensures q.startedOn == Some(t) && q.HasStarted() && q.(startedOn := p.startedOn) == p
  {
    p.(startedOn := Some(t))
  }

  /** `_set_completed_on`: writes the completion, which makes the promise ready, and nothing else. */
  function SetCompletedOn(p: Promise, t: Instant): (q: Promise)
    ensures q.completedOn == Some(t) && q.IsReady() && q.(completedOn := p.completedOn) == p
  {
    p.(completedOn := Some(t))
  }

  /** `_set_result`: writes the result and nothing else. */
  function SetResult(p: Promise, v: Value): (q: Promise)
    ensures q.result == Some(v) && q.(result := p.result) == p
  {
    p.(result := Some(v))
  }

  /** `_set_exception`: writes the exception and nothing else. */
  function SetException(p: Promise, e: Error): (q: Promise)
    ensures q.exception == Some(e) && q.(exception := p.exception) == p
  {
    p.(exception := Some(e))
  }

  /**
   * `q` is a later snapshot of `p`: the same call, a status no earlier,
   * and every field once written kept as it was.
   */
  predicate Extends(p: Promise, q: Promise)
  {
    && q.task == p.task && q.args == p.args && q.kwargs == p.kwargs && q.notify == p.notify
    && Rank(p.Status()) <= Rank(q.Status())
    && (p.HasStarted() ==> q.startedOn == p.startedOn)
    && (p.IsReady() ==> q == p)
  }

  /** On a well-formed promise the observers agree with the status: ready iff Completed, started iff not Waiting. */
  lemma ObserversMatchStatus(p: Promise)
    requires p.WellFormed()
    ensures p.IsReady() <==> p.Status() == Completed
    ensures p.HasStarted() <==> p.Status() != Waiting
  {}

  /** A well-formed promise's execution time is absent exactly until it is ready, and never an error. */
  lemma ExecutionTimeOfWellFormed(p: Promise)
    requires p.WellFormed()
    ensures ExecutionTime(p).Ok?
    ensures ExecutionTime(p).value.None? <==> !p.IsReady()
  {}

  /** The worker's three writes take a waiting promise to a well-formed completed one. */
  lemma WorkerWritesComplete(p: Promise, start: Instant, outcome: Outcome, finish: Instant)
    requires p.WellFormed() && p.Status() == Waiting
    ensures var q := SetCompletedOn(Execute(SetStartedOn(p, start), outcome), finish);
      && q.WellFormed() && q.Status() == Completed && Extends(p, q)
      && q.startedOn == Some(start) && q.completedOn == Some(finish)
      && ExecutionTime(q) == Ok(Some(finish - start))
  {}

  lemma ExtendsTransitive(p: Promise, q: Promise, r: Promise)
    requires Extends(p, q) && Extends(q, r)
    ensures Extends(p, r)
  {}
}
