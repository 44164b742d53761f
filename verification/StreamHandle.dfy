/**
 The handle around the TypeScript reader: cleanup runs at most once, and when it
 runs (clients/typescript/src/stream.ts).
 */
module StreamHandle {
  import opened Prelude

  /** An async generator's phase; its `finally` runs only if its body has begun. */
  datatype Phase = NotStarted | Suspended | Executing | Finished

  /** Requests wait for the one that is executing, which stays at the head of the queue until it settles. */
  datatype Request = NextRequest | ReturnRequest

  /** What the body comes to when it has been resumed. */
  datatype Progress = Yields | Ends | Throws

  /** `next()`, the body settling, `return()` (leaving a loop early), and the handle's `close()`. */
  datatype Call = Next | Settle(progress: Progress) | Return | Close

  datatype HandleState = HandleState(phase: Phase, queue: seq<Request>, closed: bool, aborts: nat, cleanups: nat)

  const OPENED := HandleState(NotStarted, [], false, 0, 0)

  function ClosedOnce(h: HandleState): HandleState {
    if h.closed then h else h.(closed := true, aborts := h.aborts + 1, cleanups := h.cleanups + 1)
  }

  /** The body runs to its end: the outer `finally` closes, and nothing is left to wait for. */
  function RunToEnd(h: HandleState): HandleState {
    ClosedOnce(h.(phase := Finished, queue := []))
  }

  /** The generator takes up the request at the head of its queue. */
  function TakeUp(h: HandleState): HandleState {
    if h.queue == [] then h
    else if h.phase == Finished then h.(queue := [])
    else if h.queue[0] == NextRequest then h.(phase := Executing)
    else if h.phase == Suspended then RunToEnd(h)
    else h.(phase := Finished, queue := [])
  }

  function Enqueue(h: HandleState, r: Request): HandleState {
    var queued := h.(queue := h.queue + [r]);
    if h.phase == Executing then queued else TakeUp(queued)
  }

  function CallOn(h: HandleState, call: Call): HandleState {
    match call
    case Next => Enqueue(h, NextRequest)
    case Return => Enqueue(h, ReturnRequest)
    case Close => Enqueue(ClosedOnce(h), ReturnRequest)
    case Settle(progress) =>
      if h.phase != Executing || h.queue == [] then h
      else if progress == Yields then TakeUp(h.(phase := Suspended, queue := h.queue[1..]))
      else RunToEnd(h)
  }

  class Handle {
    var phase: Phase
    var queue: seq<Request>
    var closed: bool
    var aborts: nat
    var cleanups: nat

    constructor ()
      ensures State() == OPENED
    {
      phase, queue, closed, aborts, cleanups := NotStarted, [], false, 0, 0;
    }

    function State(): HandleState
      reads this
    {
      HandleState(phase, queue, closed, aborts, cleanups)
    }

    method CloseOnce()
      modifies this`closed, this`aborts, this`cleanups
      ensures State() == ClosedOnce(old(State()))
    {
      if closed {
        return;
      }
      closed := true;
      aborts := aborts + 1;
      cleanups := cleanups + 1;
    }

    /** The body, resumed by the request at the head, comes to a yield or to its end. */
    method SettleBody(progress: Progress)
      modifies this
      ensures State() == CallOn(old(State()), Settle(progress))
    {
      if phase != Executing || queue == [] {
        return;
      }
      if progress != Yields {
        phase, queue := Finished, [];
        CloseOnce();
        return;
      }
      phase, queue := Suspended, queue[1..];
      TakeUpNext();
    }

    method TakeUpNext()
      modifies this
      ensures State() == TakeUp(old(State()))
    {
      if queue == [] {
        return;
      }
      if phase == Finished {
        queue := [];
      } else if queue[0] == NextRequest {
        phase := Executing;
      } else {
        var begun := phase == Suspended;
        phase, queue := Finished, [];
        if begun {
          CloseOnce();
        }
      }
    }

    method Send(r: Request)
      modifies this
      ensures State() == Enqueue(old(State()), r)
    {
      queue := queue + [r];
      if phase != Executing {
        TakeUpNext();
      }
    }

    /** `close()`: the cleanup at once, also while a `next()` is pending; then the generator is told to return. */
    method CloseHandle()
      modifies this
      ensures State() == CallOn(old(State()), Close)
    {
      CloseOnce();
      Send(ReturnRequest);
    }
  }

  // ---- Over any use ----

  function Uses(h: HandleState, calls: seq<Call>): HandleState {
    Fold(CallOn, h, calls)
  }

  predicate Begun(phase: Phase) {
    phase == Suspended || phase == Executing
  }

  /** A loop that has begun is over after the call: it ended, threw, was left, or left while a `next()` was pending. */
  predicate EndsLoop(h: HandleState, call: Call) {
    Begun(h.phase) && CallOn(h, call).phase == Finished
  }

  ghost predicate EverCloses(h: HandleState, calls: seq<Call>)
    decreases |calls|
  {
    calls != [] && (calls[0] == Close || EndsLoop(h, calls[0]) || EverCloses(CallOn(h, calls[0]), calls[1..]))
  }

  predicate Consistent(h: HandleState) {
    && h.aborts == h.cleanups == (if h.closed then 1 else 0)
    && (h.phase == Executing ==> h.queue != [] && h.queue[0] == NextRequest)
    && (h.phase != Executing ==> h.queue == [])
  }

  lemma {:induction false} CallKeepsConsistent(h: HandleState, call: Call)
    requires Consistent(h)
    ensures Consistent(CallOn(h, call))
    ensures CallOn(h, call).closed <==> h.closed || call == Close || EndsLoop(h, call)
  {
  }

  lemma {:induction false} UsesCloseOnceIff(h: HandleState, calls: seq<Call>)
    requires Consistent(h)
    ensures Consistent(Uses(h, calls))
    ensures Uses(h, calls).closed <==> h.closed || EverCloses(h, calls)
    decreases |calls|
  {
    if calls != [] {
      CallKeepsConsistent(h, calls[0]);
      UsesCloseOnceIff(CallOn(h, calls[0]), calls[1..]);
    }
  }

  /**
   The fetch is aborted and the caller's cleanup run exactly once when the
   handle is closed, at any moment, or a begun loop is over in any way, and not
   at all otherwise.
   */
  lemma CleanupRunsExactlyOnce(calls: seq<Call>)
    ensures var h := Uses(OPENED, calls); h.aborts == h.cleanups == if EverCloses(OPENED, calls) then 1 else 0
  {
    UsesCloseOnceIff(OPENED, calls);
  }

  /**
   Closing while a `next()` is pending cleans up at once, and when that settles,
   however it does, nothing is left open and nothing runs twice.
   */
  lemma {:induction false} CloseWhilePending(h: HandleState, progress: Progress)
    requires Consistent(h) && h.phase == Executing && |h.queue| == 1
    ensures CallOn(h, Close).aborts == 1 && CallOn(h, Close).phase == Executing
    ensures var end := CallOn(CallOn(h, Close), Settle(progress));
            end.phase == Finished && end.queue == [] && end.aborts == end.cleanups == 1
  {
    CallKeepsConsistent(h, Close);
    CallKeepsConsistent(CallOn(h, Close), Settle(progress));
  }
}
