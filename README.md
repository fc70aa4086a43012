# pond: the queue, the future and the fixed-function pool, in Dafny

This project models the sequential logic at the centre of `pond`, a Go
worker pool. Goroutines and channels are replaced by events that each
happen in one step. Four files:

- `common.dfy` (module `Common`): `Option` (Go's nil) and `Outcome`, the
  `(value, err)` pair a task returns.
- `resizable_chan.dfy` (module `ResizableChan`): the resizable task queue
  `TaskQueue`. Its coordinator loop `autoResize` owns a FIFO buffer and a
  size. It handles one event per iteration, then re-arms admission (only
  while `Len() < Size()`) and dispatch (only with a non-empty buffer). The
  class holds the buffer, the size, the closed state of `in`, and the loop's
  local `input`, `output` and `nextTask`. Each event is a method that
  reports whether it fired:
  - `Offer`: a producer sends on `In()`.
  - `Take`: a consumer receives from `Out()`.
  - `Resize`: a new size arrives on `resizeCh`.
  - `SeeInputClosed`: the loop receives the close of `in`.
  - `Close`: closes `in`.

  Once the loop has received the close of `in`, the code re-arms admission
  below the size all the same (lines 87-91), so its loop never ends; see
  "## Findings". A queue built with the plain constructor follows the
  corrected rule and keeps admission off from then on. A queue built with
  `TaskQueue.AsWritten` follows the code exactly; the two differ in nothing
  else. The accessors `Len()` and `Size()` (`pond/resizable_chan.go:44-50`)
  are the class's functions of those names; `Resize`'s contract and
  `ResizeScenario` state their results through them. The external
  `containers.Queue` is a `seq`: push at the back, peek and pop at the
  front.
- `future.dfy` (module `Future`): the rules `Then`, `OnSuccess` and
  `OnFailure` apply to an outcome, as functions, and chains of `Then`. The
  class `PondFuture` is the one-shot `done` rendezvous. The goroutine sends
  on `done` exactly once, and each `Value` consumes one send. The result is
  not cached, so only one observer of a future ever returns. A second
  `Value`, or a `Value` after a `Then`/`OnSuccess`/`OnFailure` has observed
  the future, blocks forever; the model returns `None` for such a call.
- `pool_fixedfunc.dfy` (module `PoolFixedFunc`): `FixedFuncPool` as an
  admission and swap state machine. Its state is the closed flag, the
  one-slot pause flag, the capacity, the number of ready worker slots
  (`len(taskQ)`), the pinned function, the tasks in flight, and the result
  each submission delivered. A task's closure reads the pool's function
  when it runs, not when it is submitted (`pond/pool_fixedfunc.go:62`).
  This is why `SetNewFixedFunc` waits for every slot to come back before it
  swaps the function.

Behaviour of the code worth knowing, modelled as written:

- `NewTaskQueue(n)` with `n <= 0` is not rejected. The loop starts with
  admission armed, so the first item goes in whatever the size. Only
  `Resize` rejects a size `<= 0`.
- After `Close` clears the pool's function, a task still in flight calls a
  nil function when it runs (`NilFuncPanic`).
- A `Resize` to a new size after the queue's loop has ended sends on the
  closed `resizeCh`, which panics.
- The package's tests build a future from a channel, and `Submit` calls
  `newPondFuture(rc)`. `pond/future.go` defines the constructor with a
  function argument. The model follows `pond/future.go`.

## Model

| member | source | states |
|---|---|---|
| `Future.ThenOutcome` | pond/future.go:45-52 | a failed parent's `(value, err)` is passed on unchanged, value included; a successful parent yields `next(value)` |
| `Future.FailedChainIsInert` | pond/future.go:45-52 | a `Then` chain hanging off a failed outcome invokes none of its stages and ends with that outcome |
| `Future.ChainSplit` | pond/future.go:45-52 | a chain is the chain of its first k stages followed by the rest, in outcome and in stages invoked |
| `Future.FirstErrorReachesEnd` | pond/future.go:45-52 | once a prefix of a chain has failed, later stages never run and the chain ends with that first error |
| `Future.SucceededChainRanEveryStage` | pond/future.go:45-52 | a chain that ends in success started from success and invoked every stage |
| `Future.ThreeStageChainEndsWithStop` | pond/future_test.go:73-100 | the test's three-stage chain ends with `(nil, "stop")` after invoking all three stages |
| `Future.OnSuccessCall` | pond/future.go:55-62 | the callback is invoked, with the value, if and only if `err == nil` |
| `Future.OnFailureCall` | pond/future.go:64-71 | the callback is invoked, with the error, if and only if `err != nil` |
| `Future.ExactlyOneCallbackFires` | pond/future.go:55-71 | the rules of `OnSuccess` and `OnFailure` split the outcomes: for any outcome exactly one of the two rules calls its callback |
| `Future.PondFuture.constructor` | pond/future.go:30-37 | a new future holds what its function returns and has sent nothing on `done` yet |
| `Future.PondFuture.Value` | pond/future.go:39-43 | returns exactly the stored `(value, err)` if the one send is waiting and consumes it; otherwise blocks forever |
| `Future.PondFuture.Then` | pond/future.go:45-53 | the new future's outcome is the `Then` rule applied to this future's outcome, which it consumes; it never resolves if this one was already observed |
| `Future.PondFuture.OnSuccess` | pond/future.go:55-62 | consumes the signal and calls back with the value only on success |
| `Future.PondFuture.OnFailure` | pond/future.go:64-71 | consumes the signal and calls back with the error only on failure |
| `Future.SecondObserverNeverReturns` | pond/future.go:30-43 | the first `Value` returns the produced pair, the second never returns |
| `Future.BothCallbacksOnOneFuture` | pond/future.go:39-71 | with `OnSuccess` and `OnFailure` on one future, the first takes the one signal and the second never calls back: at most one callback fires, and none on a failed outcome when `OnSuccess` wins |
| `Future.ThenTakesTheSignal` | pond/future.go:39-53 | after `Then`, the chained future resolves by the rule and a `Value` on the parent never returns |
| `ResizableChan.RearmAgreesBeforeClose` | pond/resizable_chan.go:78-91 | before `in` is closed, the corrected re-arming equals the code's |
| `ResizableChan.TaskQueue.constructor` | pond/resizable_chan.go:14-24 | empty buffer, the given size, admission armed and dispatch disarmed as the loop starts (lines 58-63); the loop follows the corrected re-arming |
| `ResizableChan.TaskQueue.AsWritten` | pond/resizable_chan.go:14-24 | as the constructor, for a queue whose loop re-arms exactly as lines 87-91 do |
| `ResizableChan.TaskQueue.EndIteration` | pond/resizable_chan.go:78-95 | dispatch armed iff the buffer is non-empty with `nextTask` its head; admission armed iff below size and, for the corrected loop, the close of `in` not yet received (as written: below size, closed or not); the loop ends when neither is armed |
| `ResizableChan.TaskQueue.Offer` | pond/resizable_chan.go:67-70 | a send panics on closed `in`, goes through iff admission is armed, appends at the back, and never takes `Len()` above `Size()` (first admission of a size <= 0 queue aside); a refused offer changes nothing |
| `ResizableChan.TaskQueue.Take` | pond/resizable_chan.go:73-85 | with a non-empty buffer hands out exactly the `Peek` head and removes it; otherwise nothing changes and a closed `out` says so |
| `ResizableChan.TaskQueue.SeeInputClosed` | pond/resizable_chan.go:67-72 | fires iff admission is armed and `in` is closed; afterwards the corrected loop keeps admission off, while as written it is armed again iff `Len() < Size()`; buffer and size unchanged |
| `ResizableChan.TaskQueue.Resize` | pond/resizable_chan.go:34-42 | an equal size is a no-op (checked first); a size <= 0 panics with nothing changed; otherwise only `Size()` changes and the buffer is kept, even below occupancy (line 75) |
| `ResizableChan.TaskQueue.Close` | pond/resizable_chan.go:52-54 | closes `in` and nothing else; a second close panics |
| `ResizableChan.TaskQueue.ProgressAfterClose` | pond/resizable_chan.go:65 | after `Close`, while the loop runs, dispatch or the close receive is enabled |
| `ResizableChan.TaskQueue.DrainAfterClose` | pond/resizable_chan.go:65-95 | with the corrected loop, after `Close`, the buffered items leave in FIFO order, then the loop ends and `out` is closed |
| `ResizableChan.TaskQueue.DrainAfterCloseAsWritten` | pond/resizable_chan.go:65-95 | with the loop as written and a size > 0, after `Close`, the buffered items leave in FIFO order, but any number of later iterations leave admission armed, the loop running, and a receive on `Out()` finding nothing rather than a closed channel |
| `ResizableChan.CloseScenario` | pond/resizable_chan.go:52-95 | a size-3 queue holding 1 and 2 is closed: as written it yields 1, 2 and then nothing, never the close of `out`; corrected it yields 1, 2 and then the close |
| `ResizableChan.ResizeScenario` | pond/resizable_chan_test.go:9-54 | size 3 with 3 items refuses a 4th; after `Resize(4)` accepts it; after two takes and `Resize(2)` holds 2 and refuses more |
| `PoolFixedFunc.DefaultCapacity` | pond/pool_fixedfunc.go:20-23 | the capacity is the first optional argument, else `8 * NumCPU` (pond/const.go:25) |
| `PoolFixedFunc.SubmitAdmission` | pond/pool_fixedfunc.go:48-60 | closed gives `ErrPoolClosed` first; else paused gives `ErrPoolPaused`; else admitted iff a worker slot is ready, waiting otherwise |
| `PoolFixedFunc.TimedAdmission` | pond/pool_fixedfunc.go:76-98 | same checks; the wait always ends: admitted iff a slot is ready and the timer does not win, else `ErrTaskTimeout` |
| `PoolFixedFunc.TimedAdmissionIsSubmitWithDeadline` | pond/pool_fixedfunc.go:43-103 | `SubmitWithTimeout` decides like `Submit` except that a wait or a lost race becomes `ErrTaskTimeout` |
| `PoolFixedFunc.CompleteAllRecordsEach` | pond/pool_fixedfunc.go:115-138 | once the tasks in flight have all run under a function, each has that function's result for its argument and other results are kept |
| `PoolFixedFunc.FixedFuncPool.constructor` | pond/pool_fixedfunc.go:20-41 | capacity as `DefaultCapacity`, exactly that many workers, every slot ready, not paused or closed, the given function |
| `PoolFixedFunc.FixedFuncPool.Enqueue` | pond/pool_fixedfunc.go:60-64 | takes exactly one ready slot and puts one task for the argument in flight |
| `PoolFixedFunc.FixedFuncPool.Submit` | pond/pool_fixedfunc.go:43-69 | reports the `SubmitAdmission` decision; a refusal or wait changes nothing; success takes one slot and queues one task |
| `PoolFixedFunc.FixedFuncPool.SubmitWithTimeout` | pond/pool_fixedfunc.go:71-103 | reports the `TimedAdmission` decision; a timeout queues nothing; success is as `Submit` |
| `PoolFixedFunc.FixedFuncPool.RunTask` | pond/pool_fixedfunc.go:62 | a task's result is the function the pool holds when it runs, applied to its argument; its slot becomes ready again |
| `PoolFixedFunc.FixedFuncPool.Pause` | pond/pool_fixedfunc.go:143-145 | fills the one-slot pause flag (line 24); with the slot full the call waits and changes nothing |
| `PoolFixedFunc.FixedFuncPool.Resume` | pond/pool_fixedfunc.go:147-149 | drains the pause slot; a no-op on a running pool (pond/pool.go:37-39) |
| `PoolFixedFunc.FixedFuncPool.SetNewFixedFunc` | pond/pool_fixedfunc.go:111-141 | swaps the function only once every slot is ready again; every task in flight has run under the old function; the pool is unpaused on return |
| `PoolFixedFunc.FixedFuncPool.Close` | pond/pool_fixedfunc.go:151-154 | marks the pool closed and clears the function |
| `PoolFixedFunc.SquareThenCubeScenario` | pond/pond_fixedfunc_test.go:12-39 | squaring 2 yields 4; after swapping in the cube, 2 yields 8 |
| `PoolFixedFunc.PauseResumeCloseScenario` | pond/pool_fixedfunc.go:48-58 | paused gives `ErrPoolPaused`, resumed admits, closed gives `ErrPoolClosed` even while paused, for both submit forms |

## Left out

- Goroutines, channel mechanics, `select` fairness, `time.After` and the sleep backoff of the drain poller (`pond/pool_fixedfunc.go:128`). Each blocking point becomes an event or a parameter. A `select` between two ready cases is the `timerWins` parameter.
- `FixedFuncPool.Submit` with no ready slot suspends its caller. The model reports `Blocked` and changes nothing.
- PoolFixedFunc.FixedFuncPool.Submit: does not model the caller that is suspended on `<-p.pool.taskQ` (`pond/pool_fixedfunc.go:60`) and resumes later. It enqueues without checking `closed` or `paused` again, so a task can be queued after `Close` and then calls the nil function; the model's `Blocked` ends the call instead.
- PoolFixedFunc.FixedFuncPool.SubmitWithTimeout: likewise does not model a slot that comes free while the `select` (`pond/pool_fixedfunc.go:93-98`) waits after `Close` or `Pause`. The task is then enqueued without a second check; the model decides the whole call from the state when it starts.
- PoolFixedFunc.FixedFuncPool.constructor: requires a capacity >= 0. With a negative first argument, `make(chan chan *taskWrapper, bp.capacity)` (`pond/pool_fixedfunc.go:30`) panics; the model does not state that panic.
- The future `Submit` returns is stood for by the submission number, and its result by the pool's `results` map. `newPondFuture(rc)` in `pond/pool_fixedfunc.go:68` does not match the constructor in `pond/future.go`.
- `Future.PondFuture.Then`, `OnSuccess` and `OnFailure` observe the parent when they are called. In the code they observe it later, from a goroutine, so which of several observers wins is a race the model does not capture.
- `PoolFixedFunc.FixedFuncPool.SetNewFixedFunc` lets the tasks in flight finish in submission order. Workers finish them in any order; the results are the same.
- Workers register their slots in `taskQ` asynchronously. The model starts the pool with every slot ready.
- `basicPool` is not part of this model: its `Pause`/`Resume` are a one-slot flag and `scale()` is a no-op. `FixedFuncPool.SetCapacity`, `SetPurgeDuration`, `Capacity` and `Workers` only delegate to `basicPool`, so they are not modelled either.
- `pond/worker.go` and the root `worker.go`/`future.go` are stubs or interface declarations. `pond/pool.go` and `pond/const.go` only give the three errors and the capacity factor 8.
- `pond/pool_fixedsize.go`, `pond/pool_fixsize.go` and `pond/pond.go` are thin constructors over `basicPool`. `pond/resource_pool.go` wraps `sync.Pool`, whose retention is unspecified. `bench/` is a benchmark.
- Values and errors are generic: `interface{}` has no structure the core relies on.

## Findings

| source | as written | input that shows it | evidently intended | confidence | as-written member | corrected member |
|---|---|---|---|---|---|---|
| pond/resizable_chan.go:87-91 | sets `input = ch.in` whenever `Len() < Size()`, even after `in` is closed | `NewTaskQueue(3)`, then `Close()` with an empty buffer: the receive from the closed `in` clears `input`, line 90 re-arms it, and the loop repeats this forever, so `out` is never closed | once the close of `in` has been received, admission stays off; the loop drains the buffer and then closes `out` | high, not executed | `ResizableChan.TaskQueue.DrainAfterCloseAsWritten` | `ResizableChan.TaskQueue.DrainAfterClose` |
