/** Which rows the Python SDK's reconnecting stream delivers, under any drops. */
module SdkDelivery {
  import opened Prelude
  import opened Json
  import opened StreamFormat
  import opened LogTail
  import opened TailProperties
  import opened Delivery
  import opened TsClient
  import opened Frames
  import opened Protocol
  import opened SdkResume

  function ServerOf(codec: Codec, log: seq<LogRow>): Server {
    (since: nat, a: Attempt) => EventsSeen(codec, log, since, a)
  }

  /** The row whose turn_start was the last thing seen before a drop. */
  function LostIn(events: seq<Event>): seq<nat> {
    if EndsInTurnStart(events) then [events[|events| - 1].id] else []
  }

  function LostOver(deliveries: seq<seq<Event>>): seq<nat> {
    if deliveries == [] then [] else LostIn(deliveries[0]) + LostOver(deliveries[1..])
  }

  function Without(rows: seq<LogRow>, lost: seq<nat>): seq<LogRow> {
    if rows == [] then []
    else (if rows[0].id in lost then [] else [rows[0]]) + Without(rows[1..], lost)
  }

  ghost predicate IdsWithin(rows: seq<LogRow>, a: nat, b: nat) {
    forall row | row in rows :: a < row.id <= b
  }

  ghost predicate AllWithin(ids: seq<nat>, a: nat, b: nat) {
    forall id | id in ids :: a < id <= b
  }

  lemma {:induction false} BetweenWithin(log: seq<LogRow>, a: nat, b: nat)
    ensures IdsWithin(Between(log, a, b), a, b)
  {
    if log != [] {
      BetweenWithin(log[1..], a, b);
    }
  }

  lemma {:induction false} WithoutAppend(a: seq<LogRow>, b: seq<LogRow>, lost: seq<nat>)
    ensures Without(a + b, lost) == Without(a, lost) + Without(b, lost)
  {
    if a == [] {
      assert a + b == b;
    } else {
      assert (a + b)[0] == a[0] && (a + b)[1..] == a[1..] + b;
      WithoutAppend(a[1..], b, lost);
    }
  }

  /** Ids lost elsewhere make no difference to a range of rows. */
  lemma {:induction false} WithoutElsewhere(rows: seq<LogRow>, here: seq<nat>, elsewhere: seq<nat>)
    requires forall row | row in rows :: row.id !in elsewhere
    ensures Without(rows, here + elsewhere) == Without(rows, here)
            && Without(rows, elsewhere + here) == Without(rows, here)
  {
    if rows != [] {
      assert rows[0] in rows;
      WithoutElsewhere(rows[1..], here, elsewhere);
    }
  }

  lemma {:induction false} WithoutNothing(rows: seq<LogRow>)
    ensures Without(rows, []) == rows
  {
    if rows != [] {
      WithoutNothing(rows[1..]);
    }
  }

  lemma {:induction false} WithoutIsShorter(rows: seq<LogRow>, lost: seq<nat>)
    ensures |Without(rows, lost)| <= |rows|
    ensures (exists row | row in rows :: row.id in lost) ==> |Without(rows, lost)| < |rows|
  {
    if rows != [] {
      WithoutIsShorter(rows[1..], lost);
      assert rows == [rows[0]] + rows[1..];
    }
  }

  /** Rows (a, b] and (b, c], each short of its own losses, make the rows (a, c] short of both. */
  lemma WithoutJoin(log: seq<LogRow>, a: nat, b: nat, c: nat, l1: seq<nat>, l2: seq<nat>)
    requires Increasing(log) && a <= b <= c && AllWithin(l1, a, b) && AllWithin(l2, b, c)
    ensures Without(Between(log, a, c), l1 + l2) == Without(Between(log, a, b), l1) + Without(Between(log, b, c), l2)
  {
    BetweenSplits(log, a, b, c);
    BetweenWithin(log, a, b);
    BetweenWithin(log, b, c);
    WithoutAppend(Between(log, a, b), Between(log, b, c), l1 + l2);
    WithoutElsewhere(Between(log, a, b), l1, l2);
    WithoutElsewhere(Between(log, b, c), l2, l1);
  }

  // ---- One connection ----

  /** What is delivered, and what is lost, between two cursors. */
  ghost predicate DeliversBetween(log: seq<LogRow>, since: nat, events: seq<Event>, lost: seq<nat>, cursor: nat) {
    && since <= cursor
    && RowsOnly(events) == RowEvents(Without(Between(log, since, cursor), lost))
    && AllWithin(lost, since, cursor)
    && forall id | id in lost :: exists row | row in Between(log, since, cursor) :: row.id == id
  }

  lemma CutDelivers(log: seq<LogRow>, since: nat, items: seq<Item>)
    requires Increasing(log) && Faithful(log, since, items) && AtMostOneAhead(log, since, items)
    ensures DeliversBetween(log, since, EventsIn(items), LostIn(EventsIn(items)), SdkId(EventsIn(items), since))
  {
    WithoutNothing(Between(log, since, CursorAfter(items, since)));
    if EndsInTurnStart(EventsIn(items)) {
      AheadDelivers(log, since, items);
    }
  }

  lemma {:induction false} AheadDelivers(log: seq<LogRow>, since: nat, items: seq<Item>)
    requires Increasing(log) && Faithful(log, since, items) && AtMostOneAhead(log, since, items)
    requires EndsInTurnStart(EventsIn(items))
    ensures DeliversBetween(log, since, EventsIn(items), LostIn(EventsIn(items)), SdkId(EventsIn(items), since))
  {
    var events, cursor := EventsIn(items), CursorAfter(items, since);
    var n := |events| - 1;
    var id := SdkId(events, since);
    assert events == events[..n] + [events[n]] && [events[n]][1..] == [];
    SdkIdAppend(events[..n], [events[n]], since);
    assert SdkId([events[n]], SdkId(events[..n], since)) == SdkId([], events[n].id) == events[n].id;
    var row := Between(log, cursor, id)[0];
    OneRowLost(log, since, cursor, row);
    BetweenWithin(log, cursor, id);
  }

  /** The rows (a, row.id] short of the last one are the rows (a, b]. */
  lemma OneRowLost(log: seq<LogRow>, a: nat, b: nat, row: LogRow)
    requires Increasing(log) && a <= b < row.id && Between(log, b, row.id) == [row]
    ensures Without(Between(log, a, row.id), [row.id]) == Between(log, a, b)
    ensures row in Between(log, a, row.id)
  {
    BetweenSplits(log, a, b, row.id);
    assert Without([row], [row.id]) == [] + Without([row][1..], [row.id]) == [];
    WithoutJoin(log, a, b, row.id, [], [row.id]);
    assert [] + [row.id] == [row.id];
    WithoutNothing(Between(log, a, b));
  }

  lemma {:induction false} AttemptDelivers(codec: Codec, log: seq<LogRow>, since: nat, a: Attempt)
    requires Increasing(log) && a.Served? && a.conn.start.Start?
    ensures var events := EventsSeen(codec, log, since, a);
            && DeliversBetween(log, since, events, LostIn(events), SdkId(events, since))
            && (!a.dropped ==> LostIn(events) == [])
  {
    var items := ConnectionItems(log, since, a.conn);
    var m := if a.dropped then Seen(codec, items, Min(a.conn.cut, |Frames.StreamText(codec, items)|)) else |items|;
    assert items[..|items|] == items;
    StreamFaithful(log, since, a.conn, m);
    StreamAhead(log, since, a.conn, m);
    CutDelivers(log, since, items[..m]);
  }

  lemma {:induction false} CursorIsSdkId(events: seq<Event>, cursor: Option<int>)
    ensures ServerSince(CursorOf(events, cursor)) == SdkId(events, ServerSince(cursor))
  {
    if events != [] {
      CursorIsSdkId(events[1..], if events[0].Start? then cursor else Some(events[0].id));
    }
  }

  // ---- Whole runs ----

  lemma DeliversJoin(log: seq<LogRow>, a: nat, b: nat, c: nat, e1: seq<Event>, e2: seq<Event>, l1: seq<nat>,
      l2: seq<nat>)
    requires Increasing(log) && DeliversBetween(log, a, e1, l1, b) && DeliversBetween(log, b, e2, l2, c)
    ensures DeliversBetween(log, a, e1 + e2, l1 + l2, c)
  {
    RowsOnlyAppend(e1, e2);
    WithoutJoin(log, a, b, c, l1, l2);
    RowEventsAppend(Without(Between(log, a, b), l1), Without(Between(log, b, c), l2));
    BetweenSplits(log, a, b, c);
    forall id | id in l1 + l2 ensures exists row | row in Between(log, a, c) :: row.id == id {
      if id in l1 {
        var row :| row in Between(log, a, b) && row.id == id;
        assert row in Between(log, a, c);
      } else {
        var row :| row in Between(log, b, c) && row.id == id;
        assert row in Between(log, a, c);
      }
    }
  }

  lemma DeliversNothing(log: seq<LogRow>, since: nat)
    ensures DeliversBetween(log, since, [], [], since)
  {
    BetweenNothing(log, since, since);
  }

  ghost predicate WellStarted(attempts: seq<Attempt>) {
    forall a | a in attempts && a.Served? :: a.conn.start.Start?
  }

  lemma {:induction false} AttemptMovesTheCursor(codec: Codec, log: seq<LogRow>, st: SdkState, a: Attempt,
      policy: Policy)
    requires Increasing(log) && a.Served? && a.conn.start.Start?
    ensures var events := ServerOf(codec, log)(ServerSince(st.cursor), a);
            && DeliversBetween(log, ServerSince(st.cursor), events, LostIn(events),
               ServerSince(AfterEvents(st, events, policy).cursor))
            && |LostIn(events)| <= (if a.dropped then 1 else 0)
  {
    AttemptDelivers(codec, log, ServerSince(st.cursor), a);
    CursorIsSdkId(EventsSeen(codec, log, ServerSince(st.cursor), a), st.cursor);
  }

  lemma {:induction false} ResumeDelivers(codec: Codec, log: seq<LogRow>, st: SdkState, attempts: seq<Attempt>,
      policy: Policy)
    requires Increasing(log) && WellStarted(attempts)
    ensures var run := Resume(ServerOf(codec, log), st, attempts, policy);
            var lost := LostOver(Deliveries(ServerOf(codec, log), st, attempts, policy));
            && DeliversBetween(log, ServerSince(st.cursor), run.events, lost, ServerSince(run.cursor))
            && |lost| <= |run.waits| + (if run.outcome == Raised then 1 else 0)
    decreases |attempts|
  {
    var serve, since := ServerOf(codec, log), ServerSince(st.cursor);
    if attempts == [] || attempts[0].Refused? {
      DeliversNothing(log, since);
    } else {
      assert attempts[0] in attempts;
      var events := serve(since, attempts[0]);
      var next := AfterEvents(st, events, policy);
      AttemptMovesTheCursor(codec, log, st, attempts[0], policy);
      if attempts[0].dropped && next.attempt + 1 <= policy.maxRetries {
        var later := Later(next, policy);
        var rest := Resume(serve, later, attempts[1..], policy);
        var d' := Deliveries(serve, later, attempts[1..], policy);
        ResumeDelivers(codec, log, later, attempts[1..], policy);
        LostOverFirst(events, d');
        DeliversJoin(log, since, ServerSince(next.cursor), ServerSince(rest.cursor), events, rest.events,
          LostIn(events), LostOver(d'));
      } else {
        assert Deliveries(serve, st, attempts, policy) == [events] + [];
        LostOverFirst(events, []);
      }
    }
  }

  lemma LostOverFirst(events: seq<Event>, d: seq<seq<Event>>)
    ensures LostOver([events] + d) == LostIn(events) + LostOver(d)
    ensures d == [] ==> LostOver([events] + d) == LostIn(events)
  {
    assert ([events] + d)[1..] == d;
  }

  /**
   Under any drops: every row is delivered at most once and in order, and the
   rows missing below the cursor are exactly those whose turn_start was the
   last event before a drop; at most one per drop.
   */
  lemma {:induction false} SdkDeliversAtMostOnce(codec: Codec, log: seq<LogRow>, since: Option<int>,
      attempts: seq<Attempt>, policy: Policy)
    requires Increasing(log) && WellStarted(attempts)
    ensures var st := SdkState(since, 0, policy.initialBackoff);
            var run := Resume(ServerOf(codec, log), st, attempts, policy);
            var lost := LostOver(Deliveries(ServerOf(codec, log), st, attempts, policy));
            && RowsOnly(run.events)
               == RowEvents(Without(Between(log, ServerSince(since), ServerSince(run.cursor)), lost))
            && |lost| <= |run.waits| + (if run.outcome == Raised then 1 else 0)
  {
    ResumeDelivers(codec, log, SdkState(since, 0, policy.initialBackoff), attempts, policy);
  }

  /** The documented exactly-once delivery holds if and only if no drop falls right after a turn_start. */
  lemma {:induction false} SdkDeliversExactlyOnceIff(codec: Codec, log: seq<LogRow>, since: Option<int>,
      attempts: seq<Attempt>, policy: Policy)
    requires Increasing(log) && WellStarted(attempts)
    ensures var st := SdkState(since, 0, policy.initialBackoff);
            var run := Resume(ServerOf(codec, log), st, attempts, policy);
            var d := Deliveries(ServerOf(codec, log), st, attempts, policy);
            RowsOnly(run.events) == RowEvents(Between(log, ServerSince(since), ServerSince(run.cursor))) <==>
            forall events | events in d :: !EndsInTurnStart(events)
  {
    var st := SdkState(since, 0, policy.initialBackoff);
    var run := Resume(ServerOf(codec, log), st, attempts, policy);
    var d := Deliveries(ServerOf(codec, log), st, attempts, policy);
    var rows := Between(log, ServerSince(since), ServerSince(run.cursor));
    ResumeDelivers(codec, log, st, attempts, policy);
    LostOverEmpty(d);
    if LostOver(d) == [] {
      WithoutNothing(rows);
    } else {
      var id := LostOver(d)[0];
      assert id in LostOver(d);
      var row :| row in rows && row.id == id;
      WithoutIsShorter(rows, LostOver(d));
    }
  }

  lemma {:induction false} LostOverEmpty(d: seq<seq<Event>>)
    ensures LostOver(d) == [] <==> forall events | events in d :: !EndsInTurnStart(events)
  {
    if d != [] {
      LostOverEmpty(d[1..]);
      assert d == [d[0]] + d[1..];
    }
  }

  // ---- A row that is lost ----

  const OUTPUT_ROW := LogRow(1, OutputKind, "stdout", "hello", "", "", None, Some(7), Some(1))
  const TURN_STARTED := TurnStart(1, Some(1))
  const SEES_IT := Poll(1, 0.0, Some(SessionView(Running, None)), 0.0)

  lemma {:induction false} OnePollSendsTurn(since: nat)
    ensures Tail([OUTPUT_ROW], StartState(since, 0.0), [SEES_IT]).items
         == if since == 0 then [Ev(TURN_STARTED), Ev(RowEvent(OUTPUT_ROW))] else []
  {
    var log, st := [OUTPUT_ROW], StartState(since, 0.0);
    var events := if since == 0 then [TURN_STARTED, RowEvent(OUTPUT_ROW)] else [];
    assert log[1..] == [] && log[..1] == log && [SEES_IT][1..] == [];
    assert Above(log, since) == if since == 0 then log else [];
    assert FormatRows([OUTPUT_ROW], None) == EventsOf(OUTPUT_ROW, None) + [];
    assert FormatRows(ChunkOf(log, st, SEES_IT), None) == events;
    assert PollItems(log, st, SEES_IT) == Items(events);
  }

  /** The connection is cut right behind the turn_start's data line. */
  function CutBehindTurnStart(codec: Codec, start: Event): Connection {
    Connection(start, 0.0, [SEES_IT], BehindLine(codec, [Ev(start)], [Ev(TURN_STARTED)]))
  }

  function Uncut(codec: Codec, start: Event): Connection {
    Connection(start, 0.0, [SEES_IT], |StreamText(codec, [Ev(start)])|)
  }

  lemma {:induction false} CutSeesTurnStart(codec: Codec, start: Event)
    requires codec.Valid() && start.Start?
    ensures EventsSeen(codec, [OUTPUT_ROW], 0, Served(CutBehindTurnStart(codec, start), true)) == [start, TURN_STARTED]
  {
    var first, rest := [Ev(start)], [Ev(TURN_STARTED), Ev(RowEvent(OUTPUT_ROW))];
    OnePollSendsTurn(0);
    assert ConnectionItems([OUTPUT_ROW], 0, CutBehindTurnStart(codec, start)) == first + rest;
    CutBehindLine(codec, first, rest);
    BehindLineIsInside(codec, first, rest);
    assert (first + rest)[..2] == Items([start, TURN_STARTED]);
    EventsOfItems([start, TURN_STARTED]);
  }

  lemma {:induction false} UncutSeesOnlyStart(codec: Codec, start: Event)
    requires start.Start?
    ensures EventsSeen(codec, [OUTPUT_ROW], 1, Served(Uncut(codec, start), false)) == [start]
  {
    OnePollSendsTurn(1);
    assert ConnectionItems([OUTPUT_ROW], 1, Uncut(codec, start)) == Items([start]);
    EventsOfItems([start]);
  }

  lemma {:induction false} StartAndTurnStart(start: Event, id: Option<int>)
    requires start.Start?
    ensures CursorOf([start, TURN_STARTED], id) == Some(1) && CursorOf([start], id) == id
    ensures RowsOnly([start, TURN_STARTED, start]) == []
  {
    var rest := [TURN_STARTED, start];
    assert [start, TURN_STARTED][1..] == [TURN_STARTED] && [TURN_STARTED][1..] == [] && [start][1..] == [];
    assert CursorOf([TURN_STARTED], id) == CursorOf([], Some(1)) && CursorOf([start], id) == CursorOf([], id);
    assert rest[1..] == [start] && [start, TURN_STARTED, start][1..] == rest;
    assert RowsOnly([start]) == [] + RowsOnly([]);
    assert RowsOnly(rest) == [] + RowsOnly([start]);
  }

  /**
   Dropped right behind the turn_start, resumed and read to the end: the log's
   one row is never given to the caller.
   */
  lemma {:induction false} SdkCanLoseARow(codec: Codec, start: Event, policy: Policy)
    requires codec.Valid() && start.Start? && policy.maxRetries >= 1
    ensures var attempts := [Served(CutBehindTurnStart(codec, start), true), Served(Uncut(codec, start), false)];
            var run := Resume(ServerOf(codec, [OUTPUT_ROW]), SdkState(None, 0, policy.initialBackoff), attempts,
              policy);
            && run.outcome == Returned && run.cursor == Some(1)
            && run.events == [start, TURN_STARTED, start] && RowsOnly(run.events) == []
  {
    var serve, st := ServerOf(codec, [OUTPUT_ROW]), SdkState(None, 0, policy.initialBackoff);
    var first, second := Served(CutBehindTurnStart(codec, start), true), Served(Uncut(codec, start), false);
    CutSeesTurnStart(codec, start);
    UncutSeesOnlyStart(codec, start);
    StartAndTurnStart(start, None);
    StartAndTurnStart(start, Some(1));
    assert [first, second][1..] == [second];
    var next := AfterEvents(st, [start, TURN_STARTED], policy);
    assert Resume(serve, Later(next, policy), [second], policy) == SdkRun([start], Some(1), [], 1, Returned);
  }
}
