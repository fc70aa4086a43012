/** The resizable task queue of pond/resizable_chan.go. Its coordinator loop
    (`autoResize`) owns a FIFO buffer and handles one event per iteration:
    an item arriving on `in`, the head leaving on `out`, a new size arriving
    on `resizeCh`, or `in` found closed. After each event it re-arms
    admission (only below `size`) and dispatch (only with a non-empty
    buffer). The loop's local variables are fields of the class here, and
    each event is a method that reports whether it could fire. */
module ResizableChan {
  import opened Common

  /** A Go runtime panic one of the queue's operations can raise. */
  datatype Panic =
    | InvalidSize          // `Resize` with a size <= 0
    | SendOnClosedChannel  // a send on `in` after `Close`, or on `resizeCh` after the loop ended
    | CloseOfClosedChannel // `Close` called twice

  /** What a producer's non-blocking send on `In()` comes to. */
  datatype OfferResult = Accepted | WouldBlock | OfferPanicked(p: Panic)

  /** What a consumer's non-blocking receive on `Out()` comes to. */
  datatype TakeResult<T> = Took(item: T) | NothingYet | OutClosed

  /** Which of the loop's `input` and `output` are armed (non-nil). */
  datatype Arms = Arms(input: bool, output: bool)

  /** The re-arming at the end of an iteration as written (lines 78-91):
      dispatch with a non-empty buffer, admission below `size`, whether or
      not `in` has been closed. */
  function ArmsAsWritten(len: nat, size: int): Arms
  {
    Arms(len < size, len > 0)
  }

  /** The re-arming the loop needs: admission stays off once the loop has
      seen `in` closed, so that the loop can end. */
  function Rearm(len: nat, size: int, inputDone: bool): Arms
  {
    Arms(!inputDone && len < size, len > 0)
  }

  /** Before `in` is closed, the corrected re-arming is the one the code does. */
  lemma RearmAgreesBeforeClose(len: nat, size: int)
    ensures Rearm(len, size, false) == ArmsAsWritten(len, size)
  {
  }

  /** The queue. Its loop is the one the code has (`AsWritten`) or the
      corrected one (the plain constructor): they differ only once the loop
      has received the close of `in`, where the code re-arms admission and
      the corrected loop leaves it off. */
  class TaskQueue<T> {
    /** The loop follows the corrected re-arming rather than lines 87-91. */
    const corrected: bool
    /** `buffer`: the FIFO the loop owns; its head is `buffer[0]`. */
    var buffer: seq<T>
    /** `size`: the current bound on admission. */
    var size: int
    /** `close(ch.in)` has happened. */
    var inClosed: bool
    /** The loop has received the close of `in`. */
    var inputDone: bool
    /** The loop's `input` is `ch.in`. */
    var input: bool
    /** The loop's `output` is `ch.out`. */
    var output: bool
    /** The loop's `nextTask`. */
    var nextTask: Option<T>
    /** The loop has left its `for` and closed `out` and `resizeCh`. */
    var exited: bool

    ghost predicate Valid()
      reads this
    {
      && (output <==> buffer != [])
      && nextTask == (if buffer == [] then None else Some(buffer[0]))
      && (inputDone ==> inClosed)
      && (corrected && inputDone ==> !input)
      && (AdmissionDue() ==> input)
      // before the first iteration `input` is armed whatever the size
      && (input ==> |buffer| < size || buffer == [])
      && (exited <==> !input && !output)
    }

    /** Admission is armed at the end of every iteration exactly when this
        holds: below the size and, in the corrected loop, before the close of
        `in` has been received. */
    predicate AdmissionDue()
      reads this
    {
      (!corrected || !inputDone) && |buffer| < size
    }

    /** `Len()`: the number of buffered items. */
    function Len(): nat
      reads this
    {
      |buffer|
    }

    /** `Size()`: the last size applied. */
    function Size(): int
      reads this
    {
      size
    }

    /** Events still to be handled before the loop can end once `in` is
        closed: one per buffered item, and the receive of the close. */
    ghost function Remaining(): nat
      reads this
    {
      |buffer| + if inputDone then 0 else 1
    }

    /** `NewTaskQueue(initSize)` (the package's test calls it
        `NewResizableChan`): an empty buffer; the loop starts with `input`
        armed and `output` disarmed. This queue runs the corrected loop. */
    constructor (initSize: int)
      ensures Valid() && corrected
      ensures buffer == [] && size == initSize
      ensures input && !output && !inClosed && !inputDone && !exited
    {
      corrected := true;
      buffer := [];
      size := initSize;
      inClosed := false;
      inputDone := false;
      input := true;
      output := false;
      nextTask := None;
      exited := false;
    }

    /** `NewTaskQueue(initSize)` running the loop exactly as the code has
        it. */
    constructor AsWritten(initSize: int)
      ensures Valid() && !corrected
      ensures buffer == [] && size == initSize
      ensures input && !output && !inClosed && !inputDone && !exited
    {
      corrected := false;
      buffer := [];
      size := initSize;
      inClosed := false;
      inputDone := false;
      input := true;
      output := false;
      nextTask := None;
      exited := false;
    }

    /** The end of an iteration: re-arm, and leave the loop (closing `out`
        and `resizeCh`) when neither arm is left. */
    method EndIteration()
      requires inputDone ==> inClosed
      modifies this
      ensures Valid()
      ensures input == AdmissionDue() && output == (buffer != [])
      ensures buffer == old(buffer) && size == old(size)
      ensures inClosed == old(inClosed) && inputDone == old(inputDone)
    {
      var arms := if corrected then Rearm(|buffer|, size, inputDone) else ArmsAsWritten(|buffer|, size);
      input, output := arms.input, arms.output;
      nextTask := if buffer == [] then None else Some(buffer[0]);
      exited := !input && !output;
    }

    /** A producer's non-blocking send of `x` on `In()`, and the iteration
        that receives it. A send on a closed `in` panics; otherwise it goes
        through exactly when admission is armed, so an admitted item never
        takes the buffer above the size (the first admission of a queue
        made with a size <= 0 aside). */
    method Offer(x: T) returns (r: OfferResult)
      requires Valid()
      modifies this
      ensures Valid()
      ensures r == (if old(inClosed) then OfferPanicked(SendOnClosedChannel)
                    else if old(input) then Accepted else WouldBlock)
      ensures r == Accepted ==> buffer == old(buffer) + [x]
      ensures r == Accepted ==> |buffer| <= size || (old(buffer) == [] && size <= 0)
      ensures r == Accepted ==> input == (|buffer| < size)
      ensures r != Accepted ==> unchanged(this)
      ensures size == old(size) && inClosed == old(inClosed) && inputDone == old(inputDone)
    {
      if inClosed {
        r := OfferPanicked(SendOnClosedChannel);
      } else if input {
        buffer := buffer + [x];
        EndIteration();
        r := Accepted;
      } else {
        r := WouldBlock;
      }
    }

    /** A consumer's non-blocking receive on `Out()`, and the iteration that
        sends: the head `nextTask` leaves the buffer, so items leave in the
        order they came. A receive on the closed `out` returns at once with
        nothing. */
    method Take() returns (r: TakeResult<T>)
      requires Valid()
      modifies this
      ensures Valid()
      ensures old(output) ==> old(nextTask).Some? && r == Took(old(nextTask).value)
      ensures old(output) ==> r == Took(old(buffer)[0]) && buffer == old(buffer)[1..]
      ensures old(output) ==> input == AdmissionDue()
      ensures !old(output) ==> r == (if old(exited) then OutClosed else NothingYet) && unchanged(this)
      ensures size == old(size) && inClosed == old(inClosed) && inputDone == old(inputDone)
    {
      if output {
        r := Took(nextTask.value);
        buffer := buffer[1..];
        EndIteration();
      } else if exited {
        r := OutClosed;
      } else {
        r := NothingYet;
      }
    }

    /** The iteration that receives the close of `in`: it fires when
        admission is armed and `in` is closed. Line 71 disarms admission;
        the re-arming of lines 87-91 arms it again below the size, while
        the corrected loop keeps it off for good. */
    method SeeInputClosed() returns (fired: bool)
      requires Valid()
      modifies this
      ensures Valid()
      ensures fired == (old(input) && old(inClosed))
      ensures fired ==> inputDone && input == AdmissionDue()
      ensures fired && corrected ==> !input
      ensures fired && !corrected ==> input == (|buffer| < size)
      ensures !fired ==> unchanged(this)
      ensures buffer == old(buffer) && size == old(size) && inClosed == old(inClosed)
    {
      fired := input && inClosed;
      if fired {
        inputDone := true;
        input := false;
        EndIteration();
      }
    }

    /** `Resize(n)`: a size equal to the current one is a no-op, checked
        before the size itself; a size <= 0 panics; otherwise the new size
        is applied by the loop (a send on `resizeCh`, which panics once the
        loop has ended). Only the size and the arms change: no buffered item
        is dropped, and shrinking below the occupancy only withholds
        admission. */
    method Resize(n: int) returns (panicked: Option<Panic>)
      requires Valid()
      modifies this
      ensures Valid()
      ensures n == old(size) ==> panicked == None && unchanged(this)
      ensures n != old(size) && n <= 0 ==> panicked == Some(InvalidSize) && unchanged(this)
      ensures n != old(size) && n > 0 && old(exited) ==> panicked == Some(SendOnClosedChannel) && unchanged(this)
      ensures n != old(size) && n > 0 && !old(exited) ==>
                panicked == None && Size() == n && input == AdmissionDue()
      ensures buffer == old(buffer) && inClosed == old(inClosed) && inputDone == old(inputDone)
    {
      if n == size {
        panicked := None;
      } else if n <= 0 {
        panicked := Some(InvalidSize);
      } else if exited {
        panicked := Some(SendOnClosedChannel);
      } else {
        size := n;
        EndIteration();
        panicked := None;
      }
    }

    /** `Close()`: closes `in`; closing it a second time panics. */
    method Close() returns (panicked: Option<Panic>)
      requires Valid()
      modifies this
      ensures Valid()
      ensures panicked == (if old(inClosed) then Some(CloseOfClosedChannel) else None)
      ensures inClosed
      ensures old(inClosed) ==> unchanged(this)
      ensures buffer == old(buffer) && size == old(size) && input == old(input)
      ensures output == old(output) && inputDone == old(inputDone) && exited == old(exited)
    {
      if inClosed {
        panicked := Some(CloseOfClosedChannel);
      } else {
        inClosed := true;
        panicked := None;
      }
    }

    /** After `Close`, every iteration either dispatches the head or
        receives the close, and each brings the loop closer to its end. */
    lemma ProgressAfterClose()
      requires Valid() && inClosed && !exited
      ensures output || input
    {
    }

    /** A consumer draining the corrected queue after `Close`: every
        buffered item leaves, in FIFO order, and then the loop ends and
        closes `out`. */
    method DrainAfterClose() returns (items: seq<T>)
      requires Valid() && corrected && inClosed
      modifies this
      ensures Valid()
      ensures items == old(buffer)
      ensures exited && buffer == [] && size == old(size)
    {
      items := [];
      while !exited
        invariant Valid() && inClosed && size == old(size)
        invariant items + buffer == old(buffer)
        invariant exited ==> buffer == []
        decreases Remaining()
      {
        if output {
          var r := Take();
          items := items + [r.item];
        } else {
          var fired := SeeInputClosed();
        }
      }
    }

    /** The same drain on the loop as written, with a positive size: every
        buffered item still leaves in FIFO order, but then any number `n` of
        further iterations receive the close of `in` and re-arm admission,
        so the loop never ends and a receive on `Out()` never sees it
        closed. */
    method DrainAfterCloseAsWritten(n: nat) returns (items: seq<T>, last: TakeResult<T>)
      requires Valid() && !corrected && inClosed && size > 0
      modifies this
      ensures Valid()
      ensures items == old(buffer) && buffer == [] && size == old(size)
      ensures input && !exited
      ensures last == NothingYet
    {
      items := [];
      while buffer != []
        invariant Valid() && inClosed && size == old(size)
        invariant items + buffer == old(buffer)
        decreases |buffer|
      {
        var r := Take();
        items := items + [r.item];
      }
      for i := 0 to n
        invariant Valid() && inClosed && buffer == [] && size == old(size)
        invariant input && !exited
      {
        var fired := SeeInputClosed();
      }
      last := Take();
    }
  }

  /** A queue of size 3 holding two items is closed. With the loop as
      written the items leave in order, but `out` is never closed; with the
      corrected loop the items leave and then `out` is closed. */
  method CloseScenario() returns (drainedAsWritten: seq<int>, lastAsWritten: TakeResult<int>, drained: seq<int>, last: TakeResult<int>)
    ensures drainedAsWritten == [1, 2] && lastAsWritten == NothingYet
    ensures drained == [1, 2] && last == OutClosed
  {
    var w := new TaskQueue<int>.AsWritten(3);
    var r := w.Offer(1);
    r := w.Offer(2);
    var p := w.Close();
    drainedAsWritten, lastAsWritten := w.DrainAfterCloseAsWritten(10);

    var q := new TaskQueue<int>(3);
    r := q.Offer(1);
    r := q.Offer(2);
    p := q.Close();
    drained := q.DrainAfterClose();
    last := q.Take();
  }

  /** The package's test: a queue of size 3 holding 3 items refuses a 4th;
      after `Resize(4)` it takes it; after two items leave and `Resize(2)`,
      it holds 2 and refuses more. */
  method ResizeScenario() returns (fourth: OfferResult, fourthAfterGrow: OfferResult, lenAfterShrink: int, fifthAfterShrink: OfferResult)
    ensures fourth == WouldBlock
    ensures fourthAfterGrow == Accepted
    ensures lenAfterShrink == 2
    ensures fifthAfterShrink == WouldBlock
  {
    var q := new TaskQueue<int>(3);
    var r := q.Offer(1);
    r := q.Offer(2);
    r := q.Offer(3);
    fourth := q.Offer(4);
    var p := q.Resize(4);
    fourthAfterGrow := q.Offer(4);
    var t := q.Take();
    t := q.Take();
    p := q.Resize(2);
    fifthAfterShrink := q.Offer(5);
    lenAfterShrink := q.Len();
    p := q.Close();
  }
}
