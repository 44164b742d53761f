/**
 The polling tail over the append-only log (stream.py).

 `log` is the whole history of one session's rows; a poll sees the prefix that
 was committed when it ran. Ids grow with commit order and start at 1.
 */
module LogTail {
  import opened Prelude
  import opened Protocol
  import opened StreamFormat

  const BATCH := 100
  const STREAM_IDLE_LIMIT := 600.0
  const HEARTBEAT := 15.0

  ghost predicate Increasing(log: seq<LogRow>) {
    log == [] || (AllAbove(log[1..], log[0].id) && Increasing(log[1..]))
  }

  ghost predicate AllAbove(log: seq<LogRow>, a: nat) {
    forall row | row in log :: row.id > a
  }

  // ---- The query ----

  function Above(log: seq<LogRow>, a: nat): seq<LogRow> {
    if log == [] then []
    else (if log[0].id > a then [log[0]] else []) + Above(log[1..], a)
  }

  /** The rows with a < id <= b. */
  function Between(log: seq<LogRow>, a: nat, b: nat): seq<LogRow> {
    if log == [] then []
    else (if a < log[0].id <= b then [log[0]] else []) + Between(log[1..], a, b)
  }

  function Query(table: seq<LogRow>, lastId: nat): seq<LogRow> {
    var rows := Above(table, lastId);
    if |rows| <= BATCH then rows else rows[..BATCH]
  }

  function LastId(chunk: seq<LogRow>, lastId: nat): nat {
    if chunk == [] then lastId else chunk[|chunk| - 1].id
  }

  lemma {:induction false} BetweenNothing(log: seq<LogRow>, a: nat, b: nat)
    requires a >= b || AllAbove(log, b)
    ensures Between(log, a, b) == []
  {
    if log != [] {
      assert log[0] in log;
      BetweenNothing(log[1..], a, b);
    }
  }

  lemma {:induction false} BetweenSplits(log: seq<LogRow>, a: nat, b: nat, c: nat)
    requires Increasing(log) && a <= b <= c
    ensures Between(log, a, c) == Between(log, a, b) + Between(log, b, c)
  {
    if log != [] {
      BetweenSplits(log[1..], a, b, c);
      if b < log[0].id {
        BetweenNothing(log[1..], a, b);
      }
    }
  }

  lemma {:induction false} AboveAppend(log: seq<LogRow>, more: seq<LogRow>, a: nat)
    ensures Above(log + more, a) == Above(log, a) + Above(more, a)
  {
    if log == [] {
      assert log + more == more;
    } else {
      assert (log + more)[0] == log[0] && (log + more)[1..] == log[1..] + more;
      AboveAppend(log[1..], more, a);
    }
  }

  lemma {:induction false} AboveEverything(log: seq<LogRow>, a: nat)
    requires AllAbove(log, a)
    ensures Above(log, a) == log
  {
    if log != [] {
      assert log[0] in log;
      AboveEverything(log[1..], a);
    }
  }

  lemma LastIdOfTail(log: seq<LogRow>, a: nat, q: nat)
    requires 0 < q <= |log|
    ensures LastId(log[..q], a) == LastId(log[1..][..q - 1], log[0].id)
  {
    assert log[..q] == [log[0]] + log[1..][..q - 1];
  }

  lemma {:induction false} FirstRows(log: seq<LogRow>, a: nat, q: nat)
    requires Increasing(log) && q <= |log| && AllAbove(log, a)
    ensures LastId(log[..q], a) >= a && Between(log, a, LastId(log[..q], a)) == log[..q]
  {
    if q == 0 {
      BetweenNothing(log, a, a);
    } else {
      var r, b := log[0], LastId(log[..q], a);
      assert r in log;
      LastIdOfTail(log, a, q);
      FirstRows(log[1..], r.id, q - 1);
      BetweenSplits(log[1..], a, r.id, b);
      BetweenNothing(log[1..], a, r.id);
    }
  }

  lemma {:induction false} RowsAfterFirst(log: seq<LogRow>, a: nat, q: nat)
    requires Increasing(log) && q <= |log| && AllAbove(log, a)
    ensures Above(log, LastId(log[..q], a)) == log[q..]
  {
    if q == 0 {
      AboveEverything(log, a);
    } else {
      LastIdOfTail(log, a, q);
      RowsAfterFirst(log[1..], log[0].id, q - 1);
      FirstRows(log[1..], log[0].id, q - 1);
    }
  }

  lemma {:induction false} FirstRowsAbove(log: seq<LogRow>, a: nat, q: nat)
    requires Increasing(log) && q <= |Above(log, a)|
    ensures var chunk := Above(log, a)[..q];
            && LastId(chunk, a) >= a && Between(log, a, LastId(chunk, a)) == chunk
            && Above(log, LastId(chunk, a)) == Above(log, a)[q..]
  {
    if log == [] {
    } else if log[0].id <= a {
      FirstRowsAbove(log[1..], a, q);
      var last := LastId(Above(log, a)[..q], a);
      assert Above(log, a) == Above(log[1..], a);
      assert Between(log, a, last) == Between(log[1..], a, last) && Above(log, last) == Above(log[1..], last);
    } else {
      assert AllAbove(log, a);
      AboveEverything(log, a);
      FirstRows(log, a, q);
      RowsAfterFirst(log, a, q);
    }
  }

  /** One query returns exactly the rows between the cursor and the last id it returns, none skipped. */
  lemma QueryIsContiguous(log: seq<LogRow>, n: nat, lastId: nat)
    requires Increasing(log) && n <= |log|
    ensures var chunk := Query(log[..n], lastId);
            LastId(chunk, lastId) >= lastId && Between(log, lastId, LastId(chunk, lastId)) == chunk
  {
    var chunk := Query(log[..n], lastId);
    assert log == log[..n] + log[n..];
    AboveAppend(log[..n], log[n..], lastId);
    assert chunk == Above(log, lastId)[..|chunk|];
    FirstRowsAbove(log, lastId, |chunk|);
  }

  lemma {:induction false} NothingAbove(table: seq<LogRow>, lastId: nat)
    requires Query(table, lastId) == []
    ensures forall row | row in table :: row.id <= lastId
  {
    if table != [] {
      assert Above(table, lastId) == [];
      assert table[0].id <= lastId && Above(table[1..], lastId) == [];
      NothingAbove(table[1..], lastId);
    }
  }

  // ---- The polling loop ----

  datatype SessionView = SessionView(status: Status, exitCode: Option<int>)

  /** What one iteration observes; `view` is None when the session row is gone. */
  datatype Poll = Poll(visible: nat, chunkClock: real, view: Option<SessionView>, clock: real)

  datatype Item = Ev(event: Event) | Heartbeat

  datatype End = Open | Ended | Idle | Gone

  datatype TailState = TailState(lastId: nat, lastTurn: Option<nat>, lastHeartbeat: real, lastChunk: real)

  datatype TailRun = TailRun(items: seq<Item>, end: End, polls: nat)

  function Items(events: seq<Event>): seq<Item> {
    seq(|events|, i requires 0 <= i < |events| => Ev(events[i]))
  }

  predicate Finished(status: Status) {
    status in {Completed, Failed, Terminated}
  }

  function Visible(log: seq<LogRow>, p: Poll): seq<LogRow> {
    log[..Min(p.visible, |log|)]
  }

  function ChunkOf(log: seq<LogRow>, st: TailState, p: Poll): seq<LogRow> {
    Query(Visible(log, p), st.lastId)
  }

  /** The cursor, turn and idle clock after the rows of one poll have been sent. */
  function AfterChunk(log: seq<LogRow>, st: TailState, p: Poll): TailState {
    var chunk := ChunkOf(log, st, p);
    st.(lastId := LastId(chunk, st.lastId),
        lastTurn := TurnAfterRows(chunk, st.lastTurn),
        lastChunk := if chunk != [] then p.chunkClock else st.lastChunk)
  }

  /** How the iteration ends, and what it sends after its rows. */
  function Closing(log: seq<LogRow>, st: TailState, p: Poll): (End, seq<Item>) {
    var next := AfterChunk(log, st, p);
    if p.view.None? then (Gone, [])
    else if Finished(p.view.value.status) && ChunkOf(log, st, p) == [] then
      (Ended, [Ev(TerminalEvent(p.view.value.status, p.view.value.exitCode, next.lastId).value)])
    else if p.clock - next.lastChunk > STREAM_IDLE_LIMIT then (Idle, [Ev(StaleEvent(next.lastId))])
    else if p.clock - st.lastHeartbeat >= HEARTBEAT then (Open, [Heartbeat])
    else (Open, [])
  }

  function NextState(log: seq<LogRow>, st: TailState, p: Poll): TailState {
    var next := AfterChunk(log, st, p);
    if Closing(log, st, p) == (Open, [Heartbeat]) then next.(lastHeartbeat := p.clock) else next
  }

  function PollItems(log: seq<LogRow>, st: TailState, p: Poll): seq<Item> {
    Items(FormatRows(ChunkOf(log, st, p), st.lastTurn)) + Closing(log, st, p).1
  }

  /** Everything the generator yields over a series of polls; the client may leave when they run out. */
  function Tail(log: seq<LogRow>, st: TailState, polls: seq<Poll>): TailRun
    decreases |polls|
  {
    if polls == [] then TailRun([], Open, 0)
    else
      var end := Closing(log, st, polls[0]).0;
      if end != Open then TailRun(PollItems(log, st, polls[0]), end, 1)
      else
        var rest := Tail(log, NextState(log, st, polls[0]), polls[1..]);
        TailRun(PollItems(log, st, polls[0]) + rest.items, rest.end, 1 + rest.polls)
  }

  function StartState(since: nat, clock: real): TailState {
    TailState(since, None, clock, clock)
  }

  lemma {:induction false} ItemsAppend(a: seq<Event>, b: seq<Event>)
    ensures Items(a + b) == Items(a) + Items(b)
  {
  }

  /** The loop over the rows of one poll. */
  method SendChunk(chunks: seq<LogRow>, cursor: nat, turn: Option<nat>)
    returns (yielded: seq<Item>, lastId: nat, lastTurnId: Option<nat>)
    ensures lastId == LastId(chunks, cursor)
    ensures lastTurnId == TurnAfterRows(chunks, turn)
    ensures yielded == Items(FormatRows(chunks, turn))
  {
    yielded, lastId, lastTurnId := [], cursor, turn;
    for i := 0 to |chunks|
      invariant lastId == LastId(chunks[..i], cursor)
      invariant lastTurnId == TurnAfterRows(chunks[..i], turn)
      invariant yielded == Items(FormatRows(chunks[..i], turn))
    {
      lastId := chunks[i].id;
      assert chunks[..i + 1] == chunks[..i] + [chunks[i]];
      FormatRowsAppend(chunks[..i], [chunks[i]], turn);
      assert [chunks[i]][1..] == [];
      var events;
      events, lastTurnId := FormatChunkEvents(chunks[i], lastTurnId);
      assert FormatRows([chunks[i]], TurnAfterRows(chunks[..i], turn)) == events + [];
      ItemsAppend(FormatRows(chunks[..i], turn), events);
      yielded := yielded + Items(events);
    }
    assert chunks[..|chunks|] == chunks;
  }

  /** After `used` iterations, with this state and this output, the rest of the run completes `whole`. */
  ghost predicate Continues(log: seq<LogRow>, st: TailState, polls: seq<Poll>, used: nat, yielded: seq<Item>,
      whole: TailRun)
    requires used <= |polls|
  {
    var rest := Tail(log, st, polls[used..]);
    whole == TailRun(yielded + rest.items, rest.end, used + rest.polls)
  }

  lemma ContinuesOnce(log: seq<LogRow>, st: TailState, polls: seq<Poll>, used: nat, yielded: seq<Item>, whole: TailRun)
    requires used < |polls| && Continues(log, st, polls, used, yielded, whole)
    ensures var end := Closing(log, st, polls[used]).0;
            var sent := yielded + PollItems(log, st, polls[used]);
            if end != Open then whole == TailRun(sent, end, used + 1)
            else Continues(log, NextState(log, st, polls[used]), polls, used + 1, sent, whole)
  {
    assert polls[used..][0] == polls[used] && polls[used..][1..] == polls[used + 1..];
  }

  /** The body of the polling loop: the rows, then the terminal, idle and heartbeat checks. */
  method RunPoll(log: seq<LogRow>, st: TailState, p: Poll) returns (sent: seq<Item>, end: End, next: TailState)
    ensures sent == PollItems(log, st, p) && end == Closing(log, st, p).0
    ensures end == Open ==> next == NextState(log, st, p)
  {
    var chunks := Query(Visible(log, p), st.lastId);
    var lastChunkTime := st.lastChunk;
    if chunks != [] {
      lastChunkTime := p.chunkClock;
    }
    var lastId, lastTurnId;
    sent, lastId, lastTurnId := SendChunk(chunks, st.lastId, st.lastTurn);
    next := TailState(lastId, lastTurnId, st.lastHeartbeat, lastChunkTime);
    if p.view.None? {
      return sent, Gone, next;
    }
    var session := p.view.value;
    if Finished(session.status) && chunks == [] {
      var terminal := TerminalEvent(session.status, session.exitCode, lastId);
      return sent + [Ev(terminal.value)], Ended, next;
    }
    if p.clock - lastChunkTime > STREAM_IDLE_LIMIT {
      return sent + [Ev(StaleEvent(lastId))], Idle, next;
    }
    if p.clock - st.lastHeartbeat >= HEARTBEAT {
      next := next.(lastHeartbeat := p.clock);
      return sent + [Heartbeat], Open, next;
    }
    return sent, Open, next;
  }

  method StreamSessionFromDb(log: seq<LogRow>, since: nat, clock: real, polls: seq<Poll>)
    returns (yielded: seq<Item>, end: End, used: nat)
    ensures TailRun(yielded, end, used) == Tail(log, StartState(since, clock), polls)
  {
    var st := StartState(since, clock);
    yielded, end, used := [], Open, 0;
    ghost var whole := Tail(log, st, polls);
    while used < |polls| && end == Open
      invariant used <= |polls|
      invariant end == Open ==> Continues(log, st, polls, used, yielded, whole)
      invariant end != Open ==> whole == TailRun(yielded, end, used)
      decreases |polls| - used
    {
      ContinuesOnce(log, st, polls, used, yielded, whole);
      var sent;
      sent, end, st := RunPoll(log, st, polls[used]);
      yielded := yielded + sent;
      used := used + 1;
    }
  }
}
