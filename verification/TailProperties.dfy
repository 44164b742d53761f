/** What the polling tail delivers, for every schedule of commits between polls and every place it is cut. */
module TailProperties {
  import opened Prelude
  import opened Protocol
  import opened StreamFormat
  import opened LogTail

  // ---- The cursor an item list leaves behind ----

  function EventsIn(items: seq<Item>): seq<Event> {
    if items == [] then []
    else (if items[0].Ev? then [items[0].event] else []) + EventsIn(items[1..])
  }

  /** The frames that carry an `id:` line: every event but start and turn_start, unless its id is 0. */
  predicate CommitsId(item: Item) {
    item.Ev? && !item.event.Start? && !item.event.TurnStart? && item.event.id != 0
  }

  function CursorAfter(items: seq<Item>, cursor: nat): nat {
    if items == [] then cursor
    else CursorAfter(items[1..], if CommitsId(items[0]) then items[0].event.id else cursor)
  }

  lemma {:induction false} ItemsAppendParts(a: seq<Item>, b: seq<Item>, cursor: nat)
    ensures EventsIn(a + b) == EventsIn(a) + EventsIn(b)
    ensures CursorAfter(a + b, cursor) == CursorAfter(b, CursorAfter(a, cursor))
  {
    if a == [] {
      assert a + b == b;
    } else {
      assert (a + b)[0] == a[0] && (a + b)[1..] == a[1..] + b;
      ItemsAppendParts(a[1..], b, if CommitsId(a[0]) then a[0].event.id else cursor);
      Associative(if a[0].Ev? then [a[0].event] else [], EventsIn(a[1..]), EventsIn(b));
    }
  }

  lemma {:induction false} EventsOfItems(events: seq<Event>)
    ensures EventsIn(Items(events)) == events
  {
    if events != [] {
      assert Items(events)[1..] == Items(events[1..]);
      EventsOfItems(events[1..]);
    }
  }

  // ---- Faithful item lists ----

  /**
   The rows among the items are exactly the log's rows between `since` and the
   cursor the items leave; and only rows move the cursor.
   */
  ghost predicate Faithful(log: seq<LogRow>, since: nat, items: seq<Item>) {
    var cursor := CursorAfter(items, since);
    && since <= cursor && RowsOnly(EventsIn(items)) == RowEvents(Between(log, since, cursor))
    && (RowsOnly(EventsIn(items)) == [] ==> cursor == since)
  }

  /** ... wherever the list is cut. */
  ghost predicate FaithfulWhereverCut(log: seq<LogRow>, since: nat, items: seq<Item>) {
    forall m | 0 <= m <= |items| :: Faithful(log, since, items[..m])
  }

  lemma RowEventsAppend(a: seq<LogRow>, b: seq<LogRow>)
    ensures RowEvents(a + b) == RowEvents(a) + RowEvents(b)
  {
  }

  lemma FaithfulJoin(log: seq<LogRow>, since: nat, a: seq<Item>, b: seq<Item>)
    requires Increasing(log)
    requires Faithful(log, since, a) && Faithful(log, CursorAfter(a, since), b)
    ensures Faithful(log, since, a + b)
  {
    var c := CursorAfter(a, since);
    var d := CursorAfter(b, c);
    ItemsAppendParts(a, b, since);
    RowsOnlyAppend(EventsIn(a), EventsIn(b));
    BetweenSplits(log, since, c, d);
    RowEventsAppend(Between(log, since, c), Between(log, c, d));
  }

  lemma CutJoin(log: seq<LogRow>, since: nat, a: seq<Item>, b: seq<Item>)
    requires Increasing(log)
    requires FaithfulWhereverCut(log, since, a) && FaithfulWhereverCut(log, CursorAfter(a, since), b)
    ensures FaithfulWhereverCut(log, since, a + b)
  {
    forall m | 0 <= m <= |a + b| ensures Faithful(log, since, (a + b)[..m]) {
      if m <= |a| {
        assert (a + b)[..m] == a[..m];
      } else {
        assert (a + b)[..m] == a + b[..m - |a|];
        assert a[..|a|] == a;
        FaithfulJoin(log, since, a, b[..m - |a|]);
      }
    }
  }

  lemma {:induction false} BetweenFirst(log: seq<LogRow>, a: nat, b: nat)
    requires Increasing(log) && Between(log, a, b) != []
    ensures var r := Between(log, a, b)[0];
            a < r.id <= b && Between(log, a, r.id) == [r] && Between(log, r.id, b) == Between(log, a, b)[1..]
  {
    var r, rest := log[0], log[1..];
    if a < r.id <= b {
      BetweenNothing(rest, a, r.id);
      BetweenSplits(rest, a, r.id, b);
    } else {
      BetweenFirst(rest, a, b);
    }
  }

  lemma CursorOfOne(item: Item, since: nat)
    ensures CursorAfter([item], since) == if CommitsId(item) then item.event.id else since
    ensures EventsIn([item]) == if item.Ev? then [item.event] else []
    ensures RowsOnly(EventsIn([item])) == if item.Ev? && item.event.IsRow() then [item.event] else []
  {
    assert [item][1..] == [];
    if item.Ev? {
      assert [item.event][1..] == [];
    }
  }

  lemma {:induction false} RowItemsFaithful(log: seq<LogRow>, since: nat, row: LogRow, turn: Option<nat>)
    requires since < row.id && Between(log, since, row.id) == [row] && Increasing(log)
    ensures FaithfulWhereverCut(log, since, Items(EventsOf(row, turn)))
    ensures CursorAfter(Items(EventsOf(row, turn)), since) == row.id
  {
    var mark := if OpensTurn(row, turn) then [Ev(TurnStart(row.id, row.turnNumber))] else [];
    var sent := [Ev(RowEvent(row))];
    assert Items(EventsOf(row, turn)) == mark + sent;
    assert [Ev(RowEvent(row))][1..] == [];
    CursorOfOne(sent[0], since);
    if mark != [] {
      CursorOfOne(mark[0], since);
    }
    BetweenNothing(log, since, since);
    assert RowEvents([row]) == [RowEvent(row)];
    assert FaithfulWhereverCut(log, since, mark) by {
      assert forall m | 0 <= m <= |mark| :: mark[..m] == [] || mark[..m] == mark;
    }
    assert FaithfulWhereverCut(log, since, sent) by {
      assert forall m | 0 <= m <= |sent| :: sent[..m] == [] || sent[..m] == sent;
    }
    CutJoin(log, since, mark, sent);
    ItemsAppendParts(mark, sent, since);
  }

  lemma {:induction false} ChunkFaithful(log: seq<LogRow>, since: nat, rows: seq<LogRow>, turn: Option<nat>)
    requires Increasing(log) && LastId(rows, since) >= since && rows == Between(log, since, LastId(rows, since))
    ensures FaithfulWhereverCut(log, since, Items(FormatRows(rows, turn)))
    ensures CursorAfter(Items(FormatRows(rows, turn)), since) == LastId(rows, since)
    decreases |rows|
  {
    if rows == [] {
      BetweenNothing(log, since, since);
      assert Items(FormatRows(rows, turn)) == [];
    } else {
      var first, rest := rows[0], rows[1..];
      var next := TurnAfter(first, turn);
      BetweenFirst(log, since, LastId(rows, since));
      assert LastId(rest, first.id) == LastId(rows, since);
      ChunkFaithful(log, first.id, rest, next);
      RowItemsFaithful(log, since, first, turn);
      var a, b := Items(EventsOf(first, turn)), Items(FormatRows(rest, next));
      ItemsAppend(EventsOf(first, turn), FormatRows(rest, next));
      assert Items(FormatRows(rows, turn)) == a + b;
      CutJoin(log, since, a, b);
      ItemsAppendParts(a, b, since);
    }
  }

  /** A closing item carries no row and its id is the cursor already reached. */
  lemma {:induction false} ClosingFaithful(log: seq<LogRow>, st: TailState, p: Poll)
    requires Increasing(log)
    ensures var cursor := AfterChunk(log, st, p).lastId;
            && FaithfulWhereverCut(log, cursor, Closing(log, st, p).1)
            && CursorAfter(Closing(log, st, p).1, cursor) == cursor
  {
    var cursor := AfterChunk(log, st, p).lastId;
    var items := Closing(log, st, p).1;
    BetweenNothing(log, cursor, cursor);
    forall m | 0 <= m <= |items| ensures Faithful(log, cursor, items[..m]) {
      assert items[..m] == [] || items[..m] == items;
    }
  }

  lemma PollFaithful(log: seq<LogRow>, st: TailState, p: Poll)
    requires Increasing(log)
    ensures FaithfulWhereverCut(log, st.lastId, PollItems(log, st, p))
    ensures CursorAfter(PollItems(log, st, p), st.lastId) == NextState(log, st, p).lastId
  {
    var chunk := ChunkOf(log, st, p);
    var rows := Items(FormatRows(chunk, st.lastTurn));
    QueryIsContiguous(log, Min(p.visible, |log|), st.lastId);
    ChunkFaithful(log, st.lastId, chunk, st.lastTurn);
    ClosingFaithful(log, st, p);
    CutJoin(log, st.lastId, rows, Closing(log, st, p).1);
    ItemsAppendParts(rows, Closing(log, st, p).1, st.lastId);
  }

  /**
   For every schedule of commits, wherever the stream is cut: the stage and
   output events delivered are exactly the rows from `since` up to the cursor,
   each once, in id order.
   */
  lemma {:induction false} TailFaithful(log: seq<LogRow>, st: TailState, polls: seq<Poll>)
    requires Increasing(log)
    ensures FaithfulWhereverCut(log, st.lastId, Tail(log, st, polls).items)
    decreases |polls|
  {
    if polls == [] {
      BetweenNothing(log, st.lastId, st.lastId);
    } else {
      PollFaithful(log, st, polls[0]);
      if Closing(log, st, polls[0]).0 == Open {
        TailFaithful(log, NextState(log, st, polls[0]), polls[1..]);
        CutJoin(log, st.lastId, PollItems(log, st, polls[0]),
          Tail(log, NextState(log, st, polls[0]), polls[1..]).items);
      }
    }
  }

  // ---- Batching is invisible ----

  /** Row and turn_start events: what comes from the log and not from the loop itself. */
  function FromLog(events: seq<Event>): seq<Event> {
    if events == [] then []
    else (if events[0].IsRow() || events[0].TurnStart? then [events[0]] else []) + FromLog(events[1..])
  }

  lemma {:induction false} FromLogAppend(a: seq<Event>, b: seq<Event>)
    ensures FromLog(a + b) == FromLog(a) + FromLog(b)
  {
    if a == [] {
      assert a + b == b;
    } else {
      assert (a + b)[0] == a[0] && (a + b)[1..] == a[1..] + b;
      FromLogAppend(a[1..], b);
      Associative(if a[0].IsRow() || a[0].TurnStart? then [a[0]] else [], FromLog(a[1..]), FromLog(b));
    }
  }

  lemma {:induction false} FormatIsFromLog(rows: seq<LogRow>, turn: Option<nat>)
    ensures FromLog(FormatRows(rows, turn)) == FormatRows(rows, turn)
  {
    if rows != [] {
      FormatIsFromLog(rows[1..], TurnAfter(rows[0], turn));
      FromLogAppend(EventsOf(rows[0], turn), FormatRows(rows[1..], TurnAfter(rows[0], turn)));
      assert FromLog(EventsOf(rows[0], turn)) == EventsOf(rows[0], turn);
    }
  }

  lemma {:induction false} PollFromLog(log: seq<LogRow>, st: TailState, p: Poll)
    ensures FromLog(EventsIn(PollItems(log, st, p))) == FormatRows(ChunkOf(log, st, p), st.lastTurn)
  {
    var events, closing := FormatRows(ChunkOf(log, st, p), st.lastTurn), Closing(log, st, p).1;
    EventsOfItems(events);
    ItemsAppendParts(Items(events), closing, 0);
    FromLogAppend(events, EventsIn(closing));
    FormatIsFromLog(ChunkOf(log, st, p), st.lastTurn);
    assert FromLog(EventsIn(closing)) == [];
  }

  /** However the rows are split over polls, the events are those of formatting all of them in one go. */
  lemma {:induction false} BatchingIsInvisible(log: seq<LogRow>, st: TailState, polls: seq<Poll>)
    requires Increasing(log)
    ensures var items := Tail(log, st, polls).items;
            var cursor := CursorAfter(items, st.lastId);
            && st.lastId <= cursor
            && FromLog(EventsIn(items)) == FormatRows(Between(log, st.lastId, cursor), st.lastTurn)
    decreases |polls|
  {
    if polls == [] {
      BetweenNothing(log, st.lastId, st.lastId);
    } else {
      var p := polls[0];
      var chunk, next := ChunkOf(log, st, p), NextState(log, st, p);
      PollFromLog(log, st, p);
      PollFaithful(log, st, p);
      QueryIsContiguous(log, Min(p.visible, |log|), st.lastId);
      if Closing(log, st, p).0 == Open {
        var rest := Tail(log, next, polls[1..]).items;
        BatchingIsInvisible(log, next, polls[1..]);
        ItemsAppendParts(PollItems(log, st, p), rest, st.lastId);
        FromLogAppend(EventsIn(PollItems(log, st, p)), EventsIn(rest));
        BetweenSplits(log, st.lastId, next.lastId, CursorAfter(rest, next.lastId));
        FormatRowsAppend(chunk, Between(log, next.lastId, CursorAfter(rest, next.lastId)), st.lastTurn);
      }
    }
  }

  // ---- The terminal event ----

  predicate NoTerminalIn(items: seq<Item>) {
    forall item | item in items && item.Ev? :: !IsTerminal(item.event)
  }

  lemma {:induction false} FormatHasNoTerminal(rows: seq<LogRow>, turn: Option<nat>)
    ensures forall e | e in FormatRows(rows, turn) :: !IsTerminal(e)
  {
    if rows != [] {
      FormatHasNoTerminal(rows[1..], TurnAfter(rows[0], turn));
    }
  }

  lemma {:induction false} OpenPollHasNoTerminal(log: seq<LogRow>, st: TailState, p: Poll)
    requires Closing(log, st, p).0 == Open
    ensures NoTerminalIn(PollItems(log, st, p))
  {
    FormatHasNoTerminal(ChunkOf(log, st, p), st.lastTurn);
  }

  /** The one terminal event stands last and carries the cursor. */
  ghost predicate EndsInItsTerminal(items: seq<Item>, since: nat) {
    && items != []
    && var n := |items| - 1;
       && NoTerminalIn(items[..n])
       && items[n].Ev? && IsTerminal(items[n].event) && items[n].event.id == CursorAfter(items, since)
  }

  lemma {:induction false} TerminalAfter(a: seq<Item>, b: seq<Item>, since: nat)
    requires NoTerminalIn(a) && EndsInItsTerminal(b, CursorAfter(a, since))
    ensures EndsInItsTerminal(a + b, since)
  {
    ItemsAppendParts(a, b, since);
    assert (a + b)[..|a + b| - 1] == a + b[..|b| - 1];
  }

  lemma {:induction false} OnlyTerminal(e: Event, since: nat)
    requires IsTerminal(e) && e.id == since
    ensures EndsInItsTerminal([Ev(e)], since) && CursorAfter([Ev(e)], since) == since
  {
    CursorOfOne(Ev(e), since);
    assert [Ev(e)][..0] == [];
  }

  lemma {:induction false} EndingPollItems(log: seq<LogRow>, st: TailState, p: Poll)
    requires Closing(log, st, p).0 == Ended
    ensures ChunkOf(log, st, p) == [] && p.view.Some?
    ensures PollItems(log, st, p) == [Ev(TerminalEvent(p.view.value.status, p.view.value.exitCode, st.lastId).value)]
  {
    assert ChunkOf(log, st, p) == [] && Items(FormatRows([], st.lastTurn)) == [];
    assert [] + Closing(log, st, p).1 == Closing(log, st, p).1;
  }

  lemma {:induction false} EndingPoll(log: seq<LogRow>, st: TailState, p: Poll)
    requires Closing(log, st, p).0 == Ended
    ensures EndsInItsTerminal(PollItems(log, st, p), st.lastId)
    ensures forall row | row in Visible(log, p) :: row.id <= CursorAfter(PollItems(log, st, p), st.lastId)
  {
    EndingPollItems(log, st, p);
    NothingAbove(Visible(log, p), st.lastId);
    OnlyTerminal(PollItems(log, st, p)[0].event, st.lastId);
  }

  /**
   A stream that ends has one terminal event; it comes last, with the cursor as
   its id, and after every row committed before the last row query.
   */
  lemma {:induction false} TerminalComesAfterEveryRow(log: seq<LogRow>, st: TailState, polls: seq<Poll>)
    requires Increasing(log) && Tail(log, st, polls).end == Ended
    ensures var run := Tail(log, st, polls);
            && 0 < run.polls <= |polls|
            && EndsInItsTerminal(run.items, st.lastId)
            && forall row | row in Visible(log, polls[run.polls - 1]) :: row.id <= CursorAfter(run.items, st.lastId)
    decreases |polls|
  {
    var p := polls[0];
    PollFaithful(log, st, p);
    if Closing(log, st, p).0 == Open {
      var next := NextState(log, st, p);
      OpenPollHasNoTerminal(log, st, p);
      TerminalComesAfterEveryRow(log, next, polls[1..]);
      TerminalAfter(PollItems(log, st, p), Tail(log, next, polls[1..]).items, st.lastId);
      ItemsAppendParts(PollItems(log, st, p), Tail(log, next, polls[1..]).items, st.lastId);
    } else {
      EndingPoll(log, st, p);
    }
  }

  /** The clock readings stay within one idle window, so the stream never goes stale. */
  ghost predicate NeverIdle(st: TailState, polls: seq<Poll>, t: real) {
    && t <= st.lastChunk
    && forall i | 0 <= i < |polls| :: t <= polls[i].chunkClock && polls[i].clock <= t + STREAM_IDLE_LIMIT
  }

  ghost predicate AllCommittedAndFinished(log: seq<LogRow>, polls: seq<Poll>, view: SessionView) {
    Finished(view.status) && forall i | 0 <= i < |polls| :: polls[i].visible >= |log| && polls[i].view == Some(view)
  }

  function PollsNeeded(rows: nat): nat {
    (rows + 99) / 100 + 1
  }

  /** One poll of a finished session: a full batch and on, or nothing left and the terminal event. */
  lemma {:induction false} FinishedPoll(log: seq<LogRow>, st: TailState, p: Poll, view: SessionView, t: real)
    requires Increasing(log) && AllCommittedAndFinished(log, [p], view) && NeverIdle(st, [p], t)
    ensures var rows := Above(log, st.lastId);
            var chunk := rows[..Min(|rows|, BATCH)];
            var next := NextState(log, st, p);
            && ChunkOf(log, st, p) == chunk
            && next.lastId == LastId(chunk, st.lastId) && next.lastTurn == TurnAfterRows(chunk, st.lastTurn)
            && t <= next.lastChunk
            && (chunk != [] ==> Closing(log, st, p).0 == Open && EventsIn(Closing(log, st, p).1) == [])
            && (chunk == [] ==> Closing(log, st, p).0 == Ended)
            && (chunk == [] ==>
                  Closing(log, st, p).1 == [Ev(TerminalEvent(view.status, view.exitCode, st.lastId).value)])
  {
    assert [p][0] == p;
    assert Visible(log, p) == log;
  }

  /** The last poll: nothing left, so only the terminal event. */
  lemma {:induction false} FinishedLastPoll(log: seq<LogRow>, st: TailState, polls: seq<Poll>, view: SessionView,
      t: real)
    requires Increasing(log) && AllCommittedAndFinished(log, polls, view) && NeverIdle(st, polls, t)
    requires polls != [] && Above(log, st.lastId) == []
    ensures EndsWith(Tail(log, st, polls), log, st, view)
  {
    var p := polls[0];
    FinishedPoll(log, st, p, view, t);
    var closing := Closing(log, st, p).1;
    CursorOfOne(closing[0], 0);
    assert PollItems(log, st, p) == closing;
    assert EventsIn(closing)[..0] == [];
  }

  /** The event that tells how the session ended, with its exit code if it has one. */
  predicate TellsTheEnd(e: Event, view: SessionView, lastId: nat) {
    match view.status
    case Completed => e == ExitEvent(lastId, view.exitCode)
    case Failed => e == if view.exitCode.Some? then ExitEvent(lastId, view.exitCode) else ErrorEvent(lastId)
    case Terminated => e == TerminatedEvent(lastId)
    case _ => false
  }

  predicate RowsThenEnd(events: seq<Event>, formatted: seq<Event>, view: SessionView, lastId: nat) {
    && events != [] && events[..|events| - 1] == formatted
    && TellsTheEnd(events[|events| - 1], view, lastId)
  }

  lemma MoreRowsThenEnd(more: seq<Event>, events: seq<Event>, formatted: seq<Event>, view: SessionView, lastId: nat)
    requires RowsThenEnd(events, formatted, view, lastId)
    ensures RowsThenEnd(more + events, more + formatted, view, lastId)
  {
    assert (more + events)[..|more + events| - 1] == more + events[..|events| - 1];
  }

  /** Every row above the cursor as if formatted in one pass, then one terminal event, after ceil(n/100) + 1 polls. */
  ghost predicate EndsWith(run: TailRun, log: seq<LogRow>, st: TailState, view: SessionView)
    requires Finished(view.status)
  {
    var rows := Above(log, st.lastId);
    && run.end == Ended && run.polls == PollsNeeded(|rows|)
    && RowsThenEnd(EventsIn(run.items), FormatRows(rows, st.lastTurn), view, LastId(rows, st.lastId))
  }

  lemma {:induction false} FinishedPollItems(log: seq<LogRow>, st: TailState, p: Poll, view: SessionView, t: real)
    requires Increasing(log) && AllCommittedAndFinished(log, [p], view) && NeverIdle(st, [p], t)
    requires Above(log, st.lastId) != []
    ensures var rows := Above(log, st.lastId);
            EventsIn(PollItems(log, st, p)) == FormatRows(rows[..Min(|rows|, BATCH)], st.lastTurn)
  {
    var rows := Above(log, st.lastId);
    var events := FormatRows(rows[..Min(|rows|, BATCH)], st.lastTurn);
    FinishedPoll(log, st, p, view, t);
    EventsOfItems(events);
    ItemsAppendParts(Items(events), Closing(log, st, p).1, 0);
  }

  lemma FinishedCounts(rows: seq<LogRow>, q: nat, id: nat)
    requires rows != [] && q == Min(|rows|, BATCH)
    ensures PollsNeeded(|rows|) == PollsNeeded(|rows[q..]|) + 1
    ensures LastId(rows[q..], LastId(rows[..q], id)) == LastId(rows, id)
  {
  }

  lemma {:induction false} FinishedFirstPoll(log: seq<LogRow>, st: TailState, polls: seq<Poll>, view: SessionView,
      t: real)
    requires Increasing(log) && AllCommittedAndFinished(log, polls, view) && NeverIdle(st, polls, t)
    requires polls != [] && Above(log, st.lastId) != []
    requires EndsWith(Tail(log, NextState(log, st, polls[0]), polls[1..]), log, NextState(log, st, polls[0]), view)
    ensures EndsWith(Tail(log, st, polls), log, st, view)
  {
    var rows, p := Above(log, st.lastId), polls[0];
    var q := Min(|rows|, BATCH);
    FinishedPoll(log, st, p, view, t);
    FinishedPollItems(log, st, p, view, t);
    FirstRowsAbove(log, st.lastId, q);
    FinishedRest(log, st, polls, rows, q);
    FinishedCounts(rows, q, st.lastId);
    var next := NextState(log, st, p);
    MoreRowsThenEnd(FormatRows(rows[..q], st.lastTurn), EventsIn(Tail(log, next, polls[1..]).items),
                    FormatRows(rows[q..], next.lastTurn), view, LastId(rows, st.lastId));
  }

  lemma {:induction false} FinishedRest(log: seq<LogRow>, st: TailState, polls: seq<Poll>, rows: seq<LogRow>, q: nat)
    requires polls != [] && q <= |rows| && Closing(log, st, polls[0]).0 == Open
    requires EventsIn(PollItems(log, st, polls[0])) == FormatRows(rows[..q], st.lastTurn)
    ensures EventsIn(Tail(log, st, polls).items)
         == FormatRows(rows[..q], st.lastTurn) + EventsIn(Tail(log, NextState(log, st, polls[0]), polls[1..]).items)
    ensures FormatRows(rows, st.lastTurn)
         == FormatRows(rows[..q], st.lastTurn) + FormatRows(rows[q..], TurnAfterRows(rows[..q], st.lastTurn))
  {
    ItemsAppendParts(PollItems(log, st, polls[0]), Tail(log, NextState(log, st, polls[0]), polls[1..]).items, 0);
    assert rows == rows[..q] + rows[q..];
    FormatRowsAppend(rows[..q], rows[q..], st.lastTurn);
  }

  /**
   A finished session with n rows left ends after exactly ceil(n/100) + 1 polls:
   all n rows as if formatted in one pass, then one terminal event, last.
   */
  lemma {:induction false} FinishedSessionEndsInTime(log: seq<LogRow>, st: TailState, polls: seq<Poll>,
      view: SessionView, t: real)
    requires Increasing(log) && AllCommittedAndFinished(log, polls, view) && NeverIdle(st, polls, t)
    requires |polls| >= PollsNeeded(|Above(log, st.lastId)|)
    ensures EndsWith(Tail(log, st, polls), log, st, view)
    decreases |polls|
  {
    var rows := Above(log, st.lastId);
    if rows == [] {
      FinishedLastPoll(log, st, polls, view, t);
    } else {
      FinishedPoll(log, st, polls[0], view, t);
      FirstRowsAbove(log, st.lastId, Min(|rows|, BATCH));
      FinishedSessionEndsInTime(log, NextState(log, st, polls[0]), polls[1..], view, t);
      FinishedFirstPoll(log, st, polls, view, t);
    }
  }
}
