# promise_keeper, modelled in Dafny

`promise_keeper.py` is a small thread pool. A caller submits a task (a callable with positional and keyword arguments and an optional notify callback) to a `PromiseKeeper`. It gets back a `Promise` that it can poll for readiness, result, exception and execution time. `start` spawns `number_threads` worker threads. Each worker repeatedly takes the head of a shared FIFO queue, runs the task, stores its outcome, calls the notify callback and stamps completion. `stop` sets the stop event, joins the workers and empties the worker list.

This project models that library as a sequential state machine without threads:

- `basics.dfy` (`Basics`): `Option`, `Result`, and the two exceptions the library raises: `PromiseKeeperStateError` with its two messages, and the `TypeError` of subtracting from a missing start.
- `promises.dfy` (`Promises`): the promise record, its observers (`IsReady`, `HasStarted`, a Waiting/Running/Completed status), `ExecutionTime`, the worker-side setters, and `Extends`. `Extends` says one snapshot of a promise is a later state of another: its status is no earlier, and every field once written is unchanged.
- `pool.dfy` (`Pool`): the pool state. This is the thread list (each worker idle, executing one promise, or dead on one), the stop event, the queue, the queue's unfinished-task count, every promise handed out (keyed by submission order), a log of notify calls, and the promises abandoned by `stop` because their worker died. It also defines the invariant `Valid` that every state keeps between worker steps.
- `worker.dfy` (`Worker`): one pass of a worker's loop, split in two where the task runs. `Begin` checks the stop event, dequeues and stamps the start. `Finish` stores the outcome, calls notify, stamps completion and calls `task_done`. `Escape` is the other way a pass ends. Line 70 catches only `Exception`, so a task that raises anything else (`SystemExit`, `GeneratorExit`, or in Python 2 an old-style class instance) kills the thread. The promise then stays running and unacknowledged, and the dead thread stays in the thread list.
- `keeper.dfy` (`PromiseKeeper`): `New`, `Submit`, `Start`, `Stop`, and `Drain`, which models the join inside `stop`. Joining a live worker waits for its task. The task either finishes the promise, or escapes `except Exception` and kills the thread. Joining a dead worker returns at once. An escaped or dead worker's promise is abandoned: it stays running and unacknowledged.
- `machine.dfy` (`Machine`): every call and every worker half-pass is an `Action`. Any interleaving is a `Run`. The properties of reachable pools are stated over runs that begin from a fresh pool.

Thread scheduling becomes the free choice of the next action. The task's outcome, whether the notify callback raises, and the clock readings are parameters of the worker steps, because they are foreign code or the environment. Nothing is assumed about the order of clock readings.

The public getters `get_result`, `get_exception`, `get_started_on` and `get_completed_on` are the record's fields `result`, `exception`, `startedOn` and `completedOn`. `is_ready`, `has_started` and `is_running` are the predicates `IsReady`, `HasStarted` and `IsRunning`.

The model follows the code where the code differs from the library's documentation and tests:

- This version has no `submit_promise`, `then_do`, auto-start, auto-stop or iterator feeder. So `submit` never starts the pool, and nothing stops it except `stop`.
- The test at `tests.py:87` expects `is_ready()` to hold inside the notify callback. The code sets `completed_on` only after notify returns, so the model's notify callback sees a promise that is not yet ready. That failing assertion would itself be swallowed by the bare `except`.
- `stop(block)` ignores `block` and always joins the workers.
- `start` does not validate `number_threads`. Zero or a negative count starts no worker, so the pool stays "not running" and `start` may be called again.

## Model

| member | source | states |
|---|---|---|
| Promises.NewPromise | promise_keeper.py:84-93 | a new promise carries exactly the given task, args, kwargs and notify, and is Waiting with no result, exception, start or completion |
| Promises.Execute | promise_keeper.py:68-71 | a returning task fills only the result, a task raising an `Exception` only the exception; exactly one of the two is set and nothing else changes (an exception that escapes line 70 is `Worker.Escape`) |
| Promises.ExecutionTime | promise_keeper.py:113-124 | nothing until the promise is ready; once ready, the completion instant minus the start instant; a ready promise without a start raises TypeError |
| Promises.ExecutionTimeOfWellFormed | promise_keeper.py:113-124 | for a well-formed promise the execution time never raises and is absent exactly while the promise is not ready |
| Promises.ObserversMatchStatus | promise_keeper.py:95-111 | on a well-formed promise, is_ready holds iff it is Completed and has_started holds iff it is no longer Waiting |
| Promises.WorkerWritesComplete | promise_keeper.py:67-77 | the worker's writes (start, outcome, completion) turn a waiting promise into a well-formed completed later snapshot of itself, with execution time finish minus start |
| Promises.SetStartedOn | promise_keeper.py:136-140 | writes the start, so the promise has started, and changes nothing else |
| Promises.SetCompletedOn | promise_keeper.py:152-156 | writes the completion, so the promise is ready, and changes nothing else |
| Promises.SetResult | promise_keeper.py:165-169 | writes the result and changes nothing else |
| Promises.SetException | promise_keeper.py:178-182 | writes the exception and changes nothing else |
| Promises.ExtendsTransitive | promise_keeper.py:67-77 | being a later snapshot composes: write-once fields and status order are kept across several steps |
| Pool.IsRunning | promise_keeper.py:46-50 | is_running holds iff the thread list is not empty; a dead thread still counts, and a pool that is not running holds no promise in a worker |
| PromiseKeeper.New | promise_keeper.py:9-12 | a fresh pool keeps the configured thread count, is not running, has an empty queue and satisfies the pool invariant |
| PromiseKeeper.Submit | promise_keeper.py:14-20 | exactly one new promise, with a fresh id younger than every existing one, is appended at the tail of the queue; it is Waiting and carries the call; every other promise, the workers, the stop event and the running state are unchanged; the invariant is kept |
| PromiseKeeper.Start | promise_keeper.py:22-33 | raises the state error ("already running") iff the pool is running; otherwise the pool has exactly max(0, number_threads) idle workers and a clear stop event, is running iff number_threads > 0, and its queue and promises are unchanged |
| PromiseKeeper.DrainLeavesIdle | promise_keeper.py:42-43 | joining the workers from a given one on leaves every one of them idle, and the earlier ones as they were |
| PromiseKeeper.DrainKeepsValid | promise_keeper.py:42-43 | the join, in which each live worker finishes its promise unless its thread is already dead or its task escapes during the join (then the promise is abandoned, still running), keeps the invariant, moves no promise back and leaves every waiting promise untouched |
| PromiseKeeper.DrainAbandons | promise_keeper.py:42-43 | joining the workers abandons exactly the promises of the workers that were already dead or whose task escapes during the join, and nothing else |
| PromiseKeeper.DrainEscapeIsDeath | promise_keeper.py:43 | a task that escapes while the join waits for its worker leaves the join's outcome exactly as if its thread had died before the join |
| PromiseKeeper.Drain | promise_keeper.py:43 | joining the workers one by one touches neither the queue, the stop event, the configured thread count nor the id counter, and keeps the thread list's length |
| PromiseKeeper.JoinWorker | promise_keeper.py:43 | joining one worker leaves it idle; its promise is abandoned iff its thread is dead or its task escapes now, and then no promise and no count changes; a live worker whose task does not escape has stored the task's outcome and stamped its completion, and the unfinished count drops by one; no other promise changes; the queue and stop event are untouched |
| PromiseKeeper.DrainCompletes | promise_keeper.py:69-77 | when the join at line 43 returns, the promise of a live worker whose task does not escape holds that task's outcome and its completion instant, as the thread wrote them before finishing |
| PromiseKeeper.DrainUntouched | promise_keeper.py:42-43 | the join leaves alone every promise no live worker is executing |
| PromiseKeeper.DrainIdle | promise_keeper.py:42-43 | joining workers that hold no promise changes nothing |
| PromiseKeeper.Stop | promise_keeper.py:35-44 | raises the state error ("isn't running") iff the pool is not running; otherwise the pool is not running; a promise a live worker was executing holds its task's outcome and is completed at the completion's instant, unless its task escapes during the join, when it is abandoned unchanged; the dead workers' promises are abandoned too; a promise is Running iff it is abandoned; the queue and every waiting promise are unchanged; the unfinished count is the queue length plus the abandoned promises |
| Worker.Begin | promise_keeper.py:61-67 | with the stop event clear and a non-empty queue, the worker removes only the head, which is the oldest waiting promise, holds it, and stamps its start; no result or exception is written yet; with the event set or the queue empty nothing changes |
| Worker.Finish | promise_keeper.py:68-78 | the held promise becomes Completed with the outcome in exactly one of result and exception; notify is called iff the promise has one, at most once, and sees the outcome but not yet the completion; completion is stamped whether or not notify raises; the worker is idle again and the queue is acknowledged once |
| Worker.Escape | promise_keeper.py:68-78 | a task exception that escapes `except Exception` kills the worker: the promise stays Running with nothing stored, no notify, no completion and no `task_done`, and the pool still counts as running |
| Worker.NotifyFailureSwallowed | promise_keeper.py:72-77 | a raising notify callback leaves the pool and the promise exactly as a returning one does |
| Machine.Next | promise_keeper.py:14-78 | every call and worker half-pass keeps the invariant and never moves a promise back to an earlier status or rewrites a written field |
| Machine.Run | promise_keeper.py:14-78 | the same holds for any interleaving of calls and worker steps |
| Machine.ReachablePromises | promise_keeper.py:104-124 | in every reachable pool a ready promise has started, holds exactly one of result and exception, and its execution time is absent exactly until it is ready |
| Machine.ReachableDequeuedInOrder | promise_keeper.py:19 | in every reachable pool, a promise has left the queue only if every promise submitted before it has left it too (FIFO) |
| Machine.ReachableUnfinished | promise_keeper.py:78 | in every reachable pool the queue's unfinished count is the number queued plus the number held by workers (executing, or dead on) plus the number abandoned, and just queued plus abandoned when the pool is not running |
| Machine.StartTwiceFails | promise_keeper.py:26-27 | starting a pool that a start with at least one thread has just made running raises the state error |
| Machine.StartWithoutThreads | promise_keeper.py:29-33 | with zero or negative number_threads, start succeeds, leaves the pool not running, and can be repeated |
| Machine.StartThenStop | promise_keeper.py:22-44 | starting a pool that is not running, with at least one thread, and stopping it before any worker step gives back the same pool with only the stop event set |
| Machine.EscapeDuringStop | promise_keeper.py:35-44 | stopping while a running task escapes during the join gives the same pool as stopping right after that task's escape |
| Machine.EscapeThenStop | promise_keeper.py:35-44 | after a task's exception has killed its worker, stop succeeds and abandons that promise unchanged and still Running; it stays counted as unfinished although it is no longer queued |
| Machine.StopTwiceFails | promise_keeper.py:40-41 | stopping a pool that stop has just stopped raises the state error |
| Machine.SubmitStartRunFinish | promise_keeper.py:14-78 | a promise submitted to a fresh pool with at least one thread, then begun and finished by a worker, is ready with the task's outcome and an execution time of finish minus start; the queue is drained and acknowledged; the notify log names it iff it has a callback |

## Left out

- Threads, `Lock`, `Event`, `Thread.join` and the busy loop on `Empty`. The caller's calls and the worker's half-passes are the atomic steps, and interleavings are the free choice of the next `Action`. `promise_keeper.py` takes a separate lock for each access, so two of the model's steps group several of the library's steps. The next two lines list them.
- Worker.Begin, Machine.ReachableDequeuedInOrder: `Begin` dequeues (line 64) and stamps the start (line 67) in one step. In `promise_keeper.py` these are two steps. Between them a dequeued promise is not yet started, and another worker can dequeue and start a later promise first. So the library does not start promises in submission order, and the model states the order only for leaving the queue. The model's `QueueIsWaiting` (queued iff Waiting) holds only between worker steps.
- Worker.Finish: storing the outcome (lines 69-71), calling notify (lines 72-76), stamping completion (line 77) and `task_done` (line 78) are one step. In `promise_keeper.py` a polling caller can see the promise in between, with an outcome but not yet ready. Such a promise is not `WellFormed`, so `WellFormed` describes promises only between worker steps. The promise handed to notify is one of these in-between states.
- The gap between a worker's stop-event check and its `get_nowait` is not modelled. There, a worker can still dequeue one promise after `stop` has set the event. `Begin` performs the check and the dequeue as one step.
- Calling the task with `*args` and `**kwargs`, and the notify callback's body, are foreign code. The task's effect is the `Outcome` parameter of `Finish`, and the callback's only modelled effect is whether it raises. A callback that writes to the promise itself is not modelled.
- Promises.Execute, Worker.Finish, Machine.ReachablePromises, Machine.SubmitStartRunFinish: a task that returns Python's `None` leaves `result` as `None` in `promise_keeper.py`, indistinguishable from "no result". Then neither result nor exception is set. The model records every return as `Some(value)`, so its "exactly one of result and exception" does not cover that case.
- `datetime.now()` becomes natural-number instants supplied to `Begin`, `Finish`, and `Stop` (through the completions in `done`), with no ordering between them.
- `__repr__` text formatting (promise_keeper.py:95-102) is left out. Only its three-way status split is modelled.
- PromiseKeeper.Stop: the completions for the promises still executing at `stop` are an input (`done`, one per worker), because those tasks run in other threads. A completion says whether the task escapes. `Stop` and `Drain` require one entry per worker.
- Worker.Begin, Worker.Finish, Worker.Escape, PromiseKeeper.Stop, Machine.Next, Machine.Run: require the pool invariant `Valid`, which every state reached from `New` keeps (`Machine.Run`). The library has no such precondition, but only reachable pools exist there.
- PromiseKeeper.Submit: requires `IdsFresh`. Python object identity is modelled by submission-order ids below `nextId`, and this requirement says those ids are fresh.
- `setup.py` and the test files are not part of this model.
