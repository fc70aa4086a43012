/** The fixed-function pool of pond/pool_fixedfunc.go: one pinned function
    applied to the argument of each submission, admission through the
    pool's closed flag, one-slot pause and ready worker slots, and a swap of
    the function that waits until every worker is idle. */
module PoolFixedFunc {
  import opened Common

  /** `defaultPoolCapacityFactor`: the default capacity is this many workers
      per CPU. */
  const DefaultPoolCapacityFactor := 8

  /** The pool's error values. */
  datatype PoolError = ErrPoolClosed | ErrPoolPaused | ErrTaskTimeout

  /** How a submission is handled: admitted, refused with an error, or left
      waiting for a worker slot. */
  datatype Admission = Admit | Reject(err: PoolError) | Wait

  /** What a task's closure comes to when a worker runs it: the pinned
      function's outcome, or the panic of calling a nil function. */
  datatype Completion<R, E> = Ran(outcome: Outcome<R, E>) | NilFuncPanic

  /** A submitted argument, tagged with the number of its submission. */
  datatype Task<A> = Task(id: nat, arg: A)

  /** What `Submit`/`SubmitWithTimeout` return: the submission's number
      (standing for its future), an error, or a caller still suspended. */
  datatype SubmitResult = Submitted(id: nat) | Rejected(err: PoolError) | Blocked

  /** The capacity `NewFixedFuncPool(f, cap...)` gives the pool: the first
      optional argument, else the factor times the CPU count. */
  function DefaultCapacity(caps: seq<int>, cores: int): (c: int)
    ensures caps != [] ==> c == caps[0]
    ensures caps == [] ==> c == DefaultPoolCapacityFactor * cores
  {
    (caps + [DefaultPoolCapacityFactor * cores])[0]
  }

  /** `Submit`'s checks in their order: closed first, then paused, then a
      ready worker slot (without one the caller waits). */
  function SubmitAdmission(closed: bool, paused: bool, slotReady: bool): (a: Admission)
    ensures a == Reject(ErrPoolClosed) <==> closed
    ensures a == Reject(ErrPoolPaused) <==> !closed && paused
    ensures a == Admit <==> !closed && !paused && slotReady
    ensures a == Wait <==> !closed && !paused && !slotReady
  {
    if closed then Reject(ErrPoolClosed)
    else if paused then Reject(ErrPoolPaused)
    else if slotReady then Admit
    else Wait
  }

  /** `SubmitWithTimeout`'s checks: as `Submit`'s, but the wait for a worker
      slot races a timer. `slotReady` says a worker slot is free, or comes
      free, before the deadline; `timerWins` says the select takes the timer
      case all the same (both cases ready). A slot that never comes free in
      time leaves only the timer. */
  function TimedAdmission(closed: bool, paused: bool, slotReady: bool, timerWins: bool): (a: Admission)
    ensures a != Wait
    ensures a == Reject(ErrTaskTimeout) <==> !closed && !paused && (!slotReady || timerWins)
    ensures a == Admit <==> !closed && !paused && slotReady && !timerWins
  {
    if closed then Reject(ErrPoolClosed)
    else if paused then Reject(ErrPoolPaused)
    else if slotReady && !timerWins then Admit
    else Reject(ErrTaskTimeout)
  }

  /** `SubmitWithTimeout` behaves like `Submit` except that a wait, or a
      lost race, ends in `ErrTaskTimeout`. */
  lemma TimedAdmissionIsSubmitWithDeadline(closed: bool, paused: bool, slotReady: bool, timerWins: bool)
    ensures TimedAdmission(closed, paused, slotReady, timerWins) ==
      match SubmitAdmission(closed, paused, slotReady)
      case Wait => Reject(ErrTaskTimeout)
      case Admit => if timerWins then Reject(ErrTaskTimeout) else Admit
      case Reject(e) => Reject(e)
  {
  }

  /** The report a submission gets for an admission decision. */
  function Report(a: Admission, id: nat): SubmitResult
  {
    match a
    case Admit => Submitted(id)
    case Reject(e) => Rejected(e)
    case Wait => Blocked
  }

  /** Running a task's closure `func() { return p.f(arg) }` with the
      function the pool holds at that moment. */
  function Run<A, R, E>(f: Option<A -> Outcome<R, E>>, arg: A): Completion<R, E>
  {
    match f
    case None => NilFuncPanic
    case Some(g) => Ran(g(arg))
  }

  /** The submission numbers of `tasks`. */
  ghost function Ids<A>(tasks: seq<Task<A>>): set<nat>
  {
    set i | 0 <= i < |tasks| :: tasks[i].id
  }

  ghost predicate IncreasingIds<A>(tasks: seq<Task<A>>)
  {
    forall i, j :: 0 <= i < j < |tasks| ==> tasks[i].id < tasks[j].id
  }

  /** The results after `tasks` have all run under `f`, in order. */
  function CompleteAll<A, R, E>(results: map<nat, Completion<R, E>>, tasks: seq<Task<A>>, f: Option<A -> Outcome<R, E>>): map<nat, Completion<R, E>>
    decreases |tasks|
  {
    if tasks == [] then results
    else CompleteAll(results[tasks[0].id := Run(f, tasks[0].arg)], tasks[1..], f)
  }

  /** After `tasks` with distinct numbers have run under `f`, each has the
      result `f` gives its argument, and every other result is kept. */
  lemma {:induction false} CompleteAllRecordsEach<A, R, E>(results: map<nat, Completion<R, E>>, tasks: seq<Task<A>>, f: Option<A -> Outcome<R, E>>)
    requires IncreasingIds(tasks)
    ensures CompleteAll(results, tasks, f).Keys == results.Keys + Ids(tasks)
    ensures forall i :: 0 <= i < |tasks| ==> CompleteAll(results, tasks, f)[tasks[i].id] == Run(f, tasks[i].arg)
    ensures forall id :: id in results && id !in Ids(tasks) ==> CompleteAll(results, tasks, f)[id] == results[id]
    decreases |tasks|
  {
    if tasks != [] {
      var t := tasks[0];
      var rest := tasks[1..];
      var next := results[t.id := Run(f, t.arg)];
      CompleteAllRecordsEach(next, rest, f);
      assert Ids(tasks) == {t.id} + Ids(rest) by {
        forall id | id in Ids(tasks) ensures id in {t.id} + Ids(rest) {
          var i :| 0 <= i < |tasks| && tasks[i].id == id;
          if i > 0 { assert rest[i - 1].id == id; }
        }
        forall id | id in Ids(rest) ensures id in Ids(tasks) {
          var i :| 0 <= i < |rest| && rest[i].id == id;
          assert tasks[i + 1].id == id;
        }
      }
      assert t.id !in Ids(rest);
      forall i | 0 <= i < |tasks|
        ensures CompleteAll(results, tasks, f)[tasks[i].id] == Run(f, tasks[i].arg)
      {
        if i > 0 {
          assert tasks[i] == rest[i - 1];
        }
      }
    }
  }

  class FixedFuncPool<A, R, E> {
    /** The pool's `close` channel has been closed. */
    var closed: bool
    /** The one-slot `pause` channel holds its signal. */
    var paused: bool
    /** `capacity`: the number of workers. */
    var capacity: int
    /** The workers the constructor made, one per slot. */
    var workers: seq<nat>
    /** `len(taskQ)`: worker slots waiting for a task. */
    var ready: nat
    /** `p.f`: the pinned function, None once `Close` has cleared it. */
    var f: Option<A -> Outcome<R, E>>
    /** Tasks handed to a worker and not yet run, in submission order. */
    var inFlight: seq<Task<A>>
    /** The result each finished submission delivered to its future. */
    var results: map<nat, Completion<R, E>>
    /** The number the next submission gets. */
    var nextId: nat

    ghost predicate Valid()
      reads this
    {
      && capacity >= 0
      && |workers| == capacity
      && ready + |inFlight| == capacity
      && IncreasingIds(inFlight)
      && (forall i :: 0 <= i < |inFlight| ==> inFlight[i].id < nextId && inFlight[i].id !in results)
      && (forall id :: id in results ==> id < nextId)
    }

    /** `NewFixedFuncPool(fn, caps...)` on a machine with `cores` CPUs: one
        worker per slot, every slot ready, not paused, not closed. A
        negative capacity makes the channel allocation panic. */
    constructor (fn: A -> Outcome<R, E>, caps: seq<int>, cores: int)
      requires DefaultCapacity(caps, cores) >= 0
      ensures Valid()
      ensures capacity == DefaultCapacity(caps, cores)
      ensures |workers| == capacity && ready == capacity
      ensures !closed && !paused && f == Some(fn)
      ensures inFlight == [] && results == map[] && nextId == 0
    {
      var cap := DefaultCapacity(caps, cores);
      var made: seq<nat> := [];
      for i := 0 to cap
        invariant |made| == i
      {
        made := made + [i];
      }
      capacity := cap;
      workers := made;
      ready := cap;
      closed := false;
      paused := false;
      f := Some(fn);
      inFlight := [];
      results := map[];
      nextId := 0;
    }

    /** Takes a ready worker slot and hands it the task for `arg`. */
    method Enqueue(arg: A) returns (id: nat)
      requires Valid() && ready > 0
      modifies this
      ensures Valid()
      ensures id == old(nextId) && nextId == old(nextId) + 1
      ensures ready == old(ready) - 1 && inFlight == old(inFlight) + [Task(id, arg)]
      ensures results == old(results) && f == old(f)
      ensures closed == old(closed) && paused == old(paused)
      ensures capacity == old(capacity) && workers == old(workers)
    {
      id := nextId;
      ready := ready - 1;
      inFlight := inFlight + [Task(id, arg)];
      nextId := nextId + 1;
    }

    /** `Submit(arg)`: refused on a closed pool, then on a paused one; else
        it takes exactly one ready slot and queues one task, whose closure
        reads the pool's function only when it runs. */
    method Submit(arg: A) returns (r: SubmitResult)
      requires Valid()
      modifies this
      ensures Valid()
      ensures r == Report(SubmitAdmission(old(closed), old(paused), old(ready) > 0), old(nextId))
      ensures !r.Submitted? ==> unchanged(this)
      ensures r.Submitted? ==> ready == old(ready) - 1 && inFlight == old(inFlight) + [Task(r.id, arg)]
      ensures r.Submitted? ==> nextId == old(nextId) + 1
      ensures results == old(results) && f == old(f)
      ensures closed == old(closed) && paused == old(paused)
      ensures capacity == old(capacity) && workers == old(workers)
    {
      var a := SubmitAdmission(closed, paused, ready > 0);
      if a == Admit {
        var id := Enqueue(arg);
        r := Submitted(id);
      } else {
        r := Report(a, nextId);
      }
    }

    /** `SubmitWithTimeout(arg, timeout)`, with the race between the timer
        and a worker slot decided by `timerWins`: a lost race queues
        nothing. */
    method SubmitWithTimeout(arg: A, timerWins: bool) returns (r: SubmitResult)
      requires Valid()
      modifies this
      ensures Valid()
      ensures r == Report(TimedAdmission(old(closed), old(paused), old(ready) > 0, timerWins), old(nextId))
      ensures !r.Submitted? ==> unchanged(this)
      ensures r.Submitted? ==> ready == old(ready) - 1 && inFlight == old(inFlight) + [Task(r.id, arg)]
      ensures r.Submitted? ==> nextId == old(nextId) + 1
      ensures results == old(results) && f == old(f)
      ensures closed == old(closed) && paused == old(paused)
      ensures capacity == old(capacity) && workers == old(workers)
    {
      var a := TimedAdmission(closed, paused, ready > 0, timerWins);
      if a == Admit {
        var id := Enqueue(arg);
        r := Submitted(id);
      } else {
        r := Report(a, nextId);
      }
    }

    /** A worker runs the `k`-th task in flight with the function the pool
        holds now, delivers the result and offers its slot again. */
    method RunTask(k: nat) returns (c: Completion<R, E>)
      requires Valid() && k < |inFlight|
      modifies this
      ensures Valid()
      ensures c == Run(old(f), old(inFlight)[k].arg)
      ensures results == old(results)[old(inFlight)[k].id := c]
      ensures inFlight == old(inFlight)[..k] + old(inFlight)[k + 1..]
      ensures ready == old(ready) + 1
      ensures f == old(f) && nextId == old(nextId)
      ensures closed == old(closed) && paused == old(paused)
      ensures capacity == old(capacity) && workers == old(workers)
    {
      var t := inFlight[k];
      c := Run(f, t.arg);
      results := results[t.id := c];
      inFlight := inFlight[..k] + inFlight[k + 1..];
      ready := ready + 1;
    }

    /** `Pause()`: fills the one-slot pause channel. With the slot already
        full the send waits for a `Resume`; that is reported as `waits`,
        with nothing changed. */
    method Pause() returns (waits: bool)
      requires Valid()
      modifies this
      ensures Valid()
      ensures waits == old(paused) && paused
      ensures waits ==> unchanged(this)
      ensures closed == old(closed) && f == old(f) && ready == old(ready)
      ensures inFlight == old(inFlight) && results == old(results) && nextId == old(nextId)
      ensures capacity == old(capacity) && workers == old(workers)
    {
      waits := paused;
      paused := true;
    }

    /** `Resume()`: drains the pause slot; on a running pool a no-op. */
    method Resume()
      requires Valid()
      modifies this
      ensures Valid()
      ensures !paused
      ensures closed == old(closed) && f == old(f) && ready == old(ready)
      ensures inFlight == old(inFlight) && results == old(results) && nextId == old(nextId)
      ensures capacity == old(capacity) && workers == old(workers)
    {
      paused := false;
    }

    /** `SetNewFixedFunc(g)`: pauses the pool, waits until every worker slot
        is ready again, that is until every task in flight has run under the
        old function, then installs `g` and resumes. With the pause slot
        already taken, `Pause` waits and nothing happens. */
    method SetNewFixedFunc(g: A -> Outcome<R, E>) returns (swapped: bool)
      requires Valid()
      modifies this
      ensures Valid()
      ensures swapped == !old(paused)
      ensures !swapped ==> unchanged(this)
      ensures swapped ==> f == Some(g) && !paused
      ensures swapped ==> ready == capacity && inFlight == []
      ensures swapped ==> results == CompleteAll(old(results), old(inFlight), old(f))
      ensures closed == old(closed) && nextId == old(nextId) && capacity == old(capacity)
      ensures workers == old(workers)
    {
      var waits := Pause();
      if waits {
        return false;
      }
      ghost var before := CompleteAll(results, inFlight, f);
      while ready != capacity
        invariant Valid() && paused
        invariant f == old(f) && closed == old(closed) && nextId == old(nextId) && capacity == old(capacity)
        invariant workers == old(workers)
        invariant CompleteAll(results, inFlight, f) == before
        decreases |inFlight|
      {
        ghost var t, rest, done := inFlight[0], inFlight[1..], results;
        var c := RunTask(0);
        assert inFlight == rest;
        assert CompleteAll(done, [t] + rest, f) == CompleteAll(results, rest, f);
      }
      f := Some(g);
      Resume();
      swapped := true;
    }

    /** `Close()`: marks the pool closed and clears the function. */
    method Close()
      requires Valid()
      modifies this
      ensures Valid()
      ensures closed && f == None
      ensures paused == old(paused) && ready == old(ready)
      ensures inFlight == old(inFlight) && results == old(results) && nextId == old(nextId)
      ensures capacity == old(capacity) && workers == old(workers)
    {
      closed := true;
      f := None;
    }
  }

  /** The package's tests: squaring 2 yields 4; after the function is
      swapped for the cube, 2 yields 8. */
  method SquareThenCubeScenario() returns (square: Completion<int, string>, cube: Completion<int, string>)
    ensures square == Ran(Outcome(4, None))
    ensures cube == Ran(Outcome(8, None))
  {
    var p := new FixedFuncPool<int, int, string>(x => Outcome(x * x, None), [], 4);
    var r := p.Submit(2);
    square := p.RunTask(0);
    var swapped := p.SetNewFixedFunc(x => Outcome(x * x * x, None));
    r := p.Submit(2);
    cube := p.RunTask(0);
  }

  /** A pool that was paused refuses with `ErrPoolPaused`, takes work again
      after `Resume`, and once closed refuses everything with
      `ErrPoolClosed`, paused or not. */
  method PauseResumeCloseScenario() returns (whilePaused: SubmitResult, resumed: SubmitResult, afterClose: SubmitResult, timedAfterClose: SubmitResult)
    ensures whilePaused == Rejected(ErrPoolPaused)
    ensures resumed.Submitted?
    ensures afterClose == Rejected(ErrPoolClosed)
    ensures timedAfterClose == Rejected(ErrPoolClosed)
  {
    var p := new FixedFuncPool<int, int, string>(x => Outcome(x, None), [4], 1);
    var waits := p.Pause();
    whilePaused := p.Submit(1);
    p.Resume();
    resumed := p.Submit(1);
    waits := p.Pause();
    p.Close();
    afterClose := p.Submit(1);
    timedAfterClose := p.SubmitWithTimeout(1, false);
  }
}
