/** When a stream with nothing to say sends a heartbeat, and when it gives up (stream.py). */
module KeepAlive {
  import opened Prelude
  import opened Protocol
  import opened StreamFormat
  import opened LogTail
  import opened TailProperties

  // ---- What the client has been sent so far ----

  predicate Beats(items: seq<Item>) {
    Heartbeat in items
  }

  predicate SendsRows(items: seq<Item>) {
    RowsOnly(EventsIn(items)) != []
  }

  function StateAfter(log: seq<LogRow>, st: TailState, polls: seq<Poll>): TailState
    decreases |polls|
  {
    if polls == [] then st else StateAfter(log, NextState(log, st, polls[0]), polls[1..])
  }

  /** When the last heartbeat was sent, told from what the polls sent; `start` is when the stream began. */
  function LastBeat(log: seq<LogRow>, st: TailState, polls: seq<Poll>, start: real): real
    decreases |polls|
  {
    if polls == [] then start
    else
      var p := polls[0];
      LastBeat(log, NextState(log, st, p), polls[1..], if Beats(PollItems(log, st, p)) then p.clock else start)
  }

  /** When rows were last seen. */
  function LastRows(log: seq<LogRow>, st: TailState, polls: seq<Poll>, start: real): real
    decreases |polls|
  {
    if polls == [] then start
    else
      var p := polls[0];
      LastRows(log, NextState(log, st, p), polls[1..], if SendsRows(PollItems(log, st, p)) then p.chunkClock else start)
  }

  // ---- One poll ----

  lemma {:induction false} PollSends(log: seq<LogRow>, st: TailState, p: Poll)
    ensures SendsRows(PollItems(log, st, p)) <==> ChunkOf(log, st, p) != []
    ensures Beats(PollItems(log, st, p)) <==> Closing(log, st, p).1 == [Heartbeat]
  {
    var events, closing := FormatRows(ChunkOf(log, st, p), st.lastTurn), Closing(log, st, p).1;
    EventsOfItems(events);
    ItemsAppendParts(Items(events), closing, 0);
    RowsOnlyAppend(events, EventsIn(closing));
    OneEventPerRow(ChunkOf(log, st, p), st.lastTurn);
    assert RowsOnly(EventsIn(closing)) == [];
    assert Heartbeat !in Items(events);
  }

  lemma {:induction false} StateIsHistory(log: seq<LogRow>, st: TailState, polls: seq<Poll>)
    requires Tail(log, st, polls).end == Open
    ensures StateAfter(log, st, polls).lastHeartbeat == LastBeat(log, st, polls, st.lastHeartbeat)
    ensures StateAfter(log, st, polls).lastChunk == LastRows(log, st, polls, st.lastChunk)
    decreases |polls|
  {
    if polls != [] {
      PollSends(log, st, polls[0]);
      StateIsHistory(log, NextState(log, st, polls[0]), polls[1..]);
    }
  }

  // ---- Over a whole stream ----

  /** The session is finished and the poll has no more rows: the stream ends with the terminal event. */
  predicate HasEnded(items: seq<Item>, p: Poll) {
    p.view.Some? && p.view.value.status in {Completed, Failed, Terminated} && !SendsRows(items)
  }

  /** No row for more than ten minutes. */
  predicate IsStale(log: seq<LogRow>, st: TailState, polls: seq<Poll>, items: seq<Item>, p: Poll) {
    p.clock - (if SendsRows(items) then p.chunkClock else LastRows(log, st, polls, st.lastChunk)) > 600.0
  }

  /**
   One more poll of a stream that is still open. It ends the stream without a
   word if the session is gone; with the terminal event if the session is
   finished and there was nothing left to send; with one stale event if there
   has been no row for more than ten minutes; and otherwise goes on, with one
   heartbeat exactly when the last one is fifteen seconds old.
   */
  lemma {:induction false} HeartbeatsAndStaleness(log: seq<LogRow>, st: TailState, polls: seq<Poll>, p: Poll)
    requires Tail(log, st, polls).end == Open
    ensures var now := StateAfter(log, st, polls);
            var items, end := PollItems(log, now, p), Closing(log, now, p).0;
            && (end == Gone <==> p.view == None)
            && (end == Ended <==> HasEnded(items, p))
            && (end == Idle <==> p.view.Some? && !HasEnded(items, p) && IsStale(log, st, polls, items, p))
            && (end == Idle ==> items != [] && items[|items| - 1] == Ev(StaleEvent(NextState(log, now, p).lastId)))
            && (Beats(items) <==> end == Open && p.clock - LastBeat(log, st, polls, st.lastHeartbeat) >= 15.0)
            && (Beats(items) ==> items[|items| - 1] == Heartbeat && Heartbeat !in items[..|items| - 1])
  {
    var now := StateAfter(log, st, polls);
    StateIsHistory(log, st, polls);
    PollEnds(log, now, p);
    OneHeartbeatLast(log, now, p);
    PollBeats(log, now, p);
  }

  lemma {:induction false} PollEnds(log: seq<LogRow>, st: TailState, p: Poll)
    ensures var items, end := PollItems(log, st, p), Closing(log, st, p).0;
            && (end == Gone <==> p.view == None)
            && (end == Ended <==> HasEnded(items, p))
            && (end == Idle <==>
                  p.view.Some? && !HasEnded(items, p)
                  && p.clock - (if SendsRows(items) then p.chunkClock else st.lastChunk) > 600.0)
            && (end == Idle ==> Closing(log, st, p).1 == [Ev(StaleEvent(NextState(log, st, p).lastId))])
  {
    PollSends(log, st, p);
  }

  lemma {:induction false} PollBeats(log: seq<LogRow>, st: TailState, p: Poll)
    ensures Beats(PollItems(log, st, p)) <==> Closing(log, st, p).0 == Open && p.clock - st.lastHeartbeat >= 15.0
    ensures Beats(PollItems(log, st, p)) ==> Closing(log, st, p).1 == [Heartbeat]
  {
    PollSends(log, st, p);
  }

  lemma {:induction false} OneHeartbeatLast(log: seq<LogRow>, st: TailState, p: Poll)
    ensures var items, closing := PollItems(log, st, p), Closing(log, st, p).1;
            && |closing| <= 1
            && (closing != [] ==> items != [] && items[|items| - 1] == closing[0] && Heartbeat !in items[..|items| - 1])
  {
    var rows := Items(FormatRows(ChunkOf(log, st, p), st.lastTurn));
    assert Closing(log, st, p).1 != [] ==> PollItems(log, st, p)[..|PollItems(log, st, p)| - 1] == rows;
  }
}
