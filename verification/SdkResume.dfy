/**
 The Python SDK's auto-reconnecting stream (clients/python/src/aod/resources/sessions.py):
 its cursor is the payload id of every event, turn_start included.
 */
module SdkResume {
  import opened Prelude
  import opened Json
  import opened StreamFormat
  import opened LogTail
  import opened TailProperties
  import opened Frames
  import opened Delivery
  import opened TsClient

  // ---- The SDK's cursor ----

  /** The id of the last event that has one. */
  function SdkId(events: seq<Event>, cursor: nat): nat {
    if events == [] then cursor
    else SdkId(events[1..], if events[0].Start? then cursor else events[0].id)
  }

  predicate EndsInTurnStart(events: seq<Event>) {
    events != [] && events[|events| - 1].TurnStart?
  }

  lemma {:induction false} SdkIdAppend(a: seq<Event>, b: seq<Event>, cursor: nat)
    ensures SdkId(a + b, cursor) == SdkId(b, SdkId(a, cursor))
  {
    if a == [] {
      assert a + b == b;
    } else {
      assert (a + b)[0] == a[0] && (a + b)[1..] == a[1..] + b;
      SdkIdAppend(a[1..], b, if a[0].Start? then cursor else a[0].id);
    }
  }

  /**
   The SDK's cursor is the standard one, except right after a turn_start: then
   it is one row ahead, the row whose output event is still to come.
   */
  ghost predicate AtMostOneAhead(log: seq<LogRow>, since: nat, items: seq<Item>) {
    var events, cursor := EventsIn(items), CursorAfter(items, since);
    if EndsInTurnStart(events) then
      && cursor < SdkId(events, since)
      && |Between(log, cursor, SdkId(events, since))| == 1
      && Between(log, cursor, SdkId(events, since))[0].id == SdkId(events, since)
    else SdkId(events, since) == cursor
  }

  ghost predicate AheadWhereverCut(log: seq<LogRow>, since: nat, items: seq<Item>) {
    forall m | 0 <= m <= |items| :: AtMostOneAhead(log, since, items[..m])
  }

  lemma AheadJoinOne(log: seq<LogRow>, since: nat, a: seq<Item>, b: seq<Item>)
    requires AtMostOneAhead(log, since, a) && !EndsInTurnStart(EventsIn(a))
    requires AtMostOneAhead(log, CursorAfter(a, since), b)
    ensures AtMostOneAhead(log, since, a + b)
  {
    ItemsAppendParts(a, b, since);
    SdkIdAppend(EventsIn(a), EventsIn(b), since);
    if EventsIn(b) == [] {
      assert EventsIn(a + b) == EventsIn(a);
    } else {
      assert EventsIn(a + b)[|EventsIn(a + b)| - 1] == EventsIn(b)[|EventsIn(b)| - 1];
    }
  }

  lemma AheadJoin(log: seq<LogRow>, since: nat, a: seq<Item>, b: seq<Item>)
    requires AheadWhereverCut(log, since, a) && !EndsInTurnStart(EventsIn(a))
    requires AheadWhereverCut(log, CursorAfter(a, since), b)
    ensures AheadWhereverCut(log, since, a + b)
  {
    assert a[..|a|] == a;
    forall m | 0 <= m <= |a + b| ensures AtMostOneAhead(log, since, (a + b)[..m]) {
      if m <= |a| {
        assert (a + b)[..m] == a[..m];
      } else {
        assert (a + b)[..m] == a + b[..m - |a|];
        AheadJoinOne(log, since, a, b[..m - |a|]);
      }
    }
  }

  lemma SdkIdOfOne(item: Item, since: nat)
    ensures SdkId(EventsIn([item]), since) == if item.Ev? && !item.event.Start? then item.event.id else since
  {
    CursorOfOne(item, since);
    if item.Ev? {
      assert [item.event][1..] == [];
    }
  }

  lemma OneItemAhead(log: seq<LogRow>, since: nat, item: Item)
    requires item.Ev? && !item.event.Start? ==> item.event.id >= since
    requires item.Ev? && item.event.TurnStart? ==>
               item.event.id > since && |Between(log, since, item.event.id)| == 1
                 && Between(log, since, item.event.id)[0].id == item.event.id
    ensures AheadWhereverCut(log, since, [item])
  {
    CursorOfOne(item, since);
    SdkIdOfOne(item, since);
    forall m | 0 <= m <= 1 ensures AtMostOneAhead(log, since, [item][..m]) {
      assert [item][..m] == if m == 0 then [] else [item];
    }
  }

  lemma {:induction false} RowAhead(log: seq<LogRow>, since: nat, row: LogRow, turn: Option<nat>)
    requires Increasing(log) && since < row.id && Between(log, since, row.id) == [row]
    ensures AheadWhereverCut(log, since, Items(EventsOf(row, turn))) && !EndsInTurnStart(EventsOf(row, turn))
  {
    var sent := Ev(RowEvent(row));
    OneItemAhead(log, since, sent);
    if OpensTurn(row, turn) {
      var mark := Ev(TurnStart(row.id, row.turnNumber));
      OneItemAhead(log, since, mark);
      CursorOfOne(mark, since);
      CursorOfOne(sent, since);
      SdkIdOfOne(mark, since);
      SdkIdOfOne(sent, since);
      ItemsAppendParts([mark], [sent], since);
      SdkIdAppend(EventsIn([mark]), EventsIn([sent]), since);
      assert Items(EventsOf(row, turn)) == [mark] + [sent];
      forall m | 0 <= m <= 2 ensures AtMostOneAhead(log, since, ([mark] + [sent])[..m]) {
        assert m <= 1 ==> ([mark] + [sent])[..m] == [mark][..m];
        assert m == 2 ==> ([mark] + [sent])[..m] == [mark] + [sent];
      }
    } else {
      assert Items(EventsOf(row, turn)) == [sent];
    }
  }

  lemma {:induction false} ChunkAhead(log: seq<LogRow>, since: nat, rows: seq<LogRow>, turn: Option<nat>)
    requires Increasing(log) && LastId(rows, since) >= since && rows == Between(log, since, LastId(rows, since))
    ensures AheadWhereverCut(log, since, Items(FormatRows(rows, turn)))
    ensures !EndsInTurnStart(FormatRows(rows, turn))
    decreases |rows|
  {
    if rows == [] {
      assert Items(FormatRows(rows, turn)) == [];
    } else {
      var first, rest, next := rows[0], rows[1..], TurnAfter(rows[0], turn);
      BetweenFirst(log, since, LastId(rows, since));
      assert LastId(rest, first.id) == LastId(rows, since);
      ChunkAhead(log, first.id, rest, next);
      RowAhead(log, since, first, turn);
      RowItemsFaithful(log, since, first, turn);
      EventsOfItems(EventsOf(first, turn));
      ItemsAppend(EventsOf(first, turn), FormatRows(rest, next));
      AheadJoin(log, since, Items(EventsOf(first, turn)), Items(FormatRows(rest, next)));
    }
  }

  lemma ClosingAhead(log: seq<LogRow>, st: TailState, p: Poll)
    ensures var cursor := AfterChunk(log, st, p).lastId;
            AheadWhereverCut(log, cursor, Closing(log, st, p).1) && !EndsInTurnStart(EventsIn(Closing(log, st, p).1))
  {
    var cursor, closing := AfterChunk(log, st, p).lastId, Closing(log, st, p).1;
    if closing != [] {
      assert closing == [closing[0]];
      CursorOfOne(closing[0], cursor);
      OneItemAhead(log, cursor, closing[0]);
    }
  }

  lemma PollAhead(log: seq<LogRow>, st: TailState, p: Poll)
    requires Increasing(log)
    ensures AheadWhereverCut(log, st.lastId, PollItems(log, st, p)) && !EndsInTurnStart(EventsIn(PollItems(log, st, p)))
  {
    var chunk, closing := ChunkOf(log, st, p), Closing(log, st, p).1;
    var events := FormatRows(chunk, st.lastTurn);
    QueryIsContiguous(log, Min(p.visible, |log|), st.lastId);
    ChunkAhead(log, st.lastId, chunk, st.lastTurn);
    ChunkFaithful(log, st.lastId, chunk, st.lastTurn);
    ClosingAhead(log, st, p);
    EventsOfItems(events);
    AheadJoin(log, st.lastId, Items(events), closing);
    ItemsAppendParts(Items(events), closing, 0);
  }

  lemma {:induction false} TailAhead(log: seq<LogRow>, st: TailState, polls: seq<Poll>)
    requires Increasing(log)
    ensures AheadWhereverCut(log, st.lastId, Tail(log, st, polls).items)
    ensures !EndsInTurnStart(EventsIn(Tail(log, st, polls).items))
    decreases |polls|
  {
    if polls == [] {
    } else {
      PollAhead(log, st, polls[0]);
      PollFaithful(log, st, polls[0]);
      if Closing(log, st, polls[0]).0 == Open {
        var rest := Tail(log, NextState(log, st, polls[0]), polls[1..]).items;
        TailAhead(log, NextState(log, st, polls[0]), polls[1..]);
        AheadJoin(log, st.lastId, PollItems(log, st, polls[0]), rest);
        ItemsAppendParts(PollItems(log, st, polls[0]), rest, 0);
      }
    }
  }

  lemma StreamAhead(log: seq<LogRow>, since: nat, conn: Connection, m: nat)
    requires Increasing(log) && conn.start.Start? && m <= |ConnectionItems(log, since, conn)|
    ensures AtMostOneAhead(log, since, ConnectionItems(log, since, conn)[..m])
    ensures !EndsInTurnStart(EventsIn(ConnectionItems(log, since, conn)))
  {
    var start, tail := Ev(conn.start), Tail(log, StartState(since, conn.clock), conn.polls).items;
    OneItemAhead(log, since, start);
    CursorOfOne(start, since);
    TailAhead(log, StartState(since, conn.clock), conn.polls);
    AheadJoin(log, since, [start], tail);
    ItemsAppendParts([start], tail, 0);
  }

  // ---- The retry loop ----

  /** One attempt to stream: served (and dropped or not), or refused with an error that is not retried. */
  datatype Attempt = Served(conn: Connection, dropped: bool) | Refused

  datatype Policy = Policy(maxRetries: nat, initialBackoff: real, multiplier: real, maxBackoff: real)

  datatype Outcome = Returned | Raised | ErrorRaised | Waiting

  datatype SdkState = SdkState(cursor: Option<int>, attempt: nat, backoff: real)

  datatype SdkRun = SdkRun(events: seq<Event>, cursor: Option<int>, waits: seq<real>, connections: nat,
      outcome: Outcome)

  /** The events the SDK gets out of one attempt at a cursor; the loop is proved for every such server. */
  type Server = (nat, Attempt) -> seq<Event>

  /** The server's reading of the `since` the SDK sends. */
  function ServerSince(cursor: Option<int>): nat {
    if cursor.None? then 0 else Max(0, cursor.value)
  }

  /** The events the SDK parses out of one served attempt. */
  function EventsSeen(codec: Codec, log: seq<LogRow>, since: nat, a: Attempt): seq<Event> {
    if a.Refused? then [] else
    var items := ConnectionItems(log, since, a.conn);
    var text := StreamText(codec, items);
    EventsIn(if a.dropped then items[..Seen(codec, items, Min(a.conn.cut, |text|))] else items)
  }

  /** ... which is what a line reader makes of the characters that arrived. */
  lemma {:induction false} EventsSeenAreParsed(codec: Codec, log: seq<LogRow>, since: nat, a: Attempt)
    requires codec.Valid() && a.Served?
    ensures var text := StreamText(codec, ConnectionItems(log, since, a.conn));
            ToStreamEvents(EventsSeen(codec, log, since, a)) ==
            if a.dropped then EventsOfLines(codec, Lines.Complete(text[..Min(a.conn.cut, |text|)], '\n'))
            else EventsOfText(codec, text, "")
  {
    var items := ConnectionItems(log, since, a.conn);
    var text := StreamText(codec, items);
    if a.dropped {
      CutStreamLines(codec, items, Min(a.conn.cut, |text|));
    } else {
      assert Flatten([text]) == text + Flatten([]);
      ReadingUndoesFraming(codec, items, [text]);
    }
  }

  function CursorOf(events: seq<Event>, cursor: Option<int>): Option<int> {
    if events == [] then cursor
    else CursorOf(events[1..], if events[0].Start? then cursor else Some(events[0].id))
  }

  function MinReal(a: real, b: real): real {
    if a <= b then a else b
  }

  /** Any event resets the failure count and the backoff. */
  function AfterEvents(st: SdkState, events: seq<Event>, policy: Policy): SdkState {
    if events == [] then st else SdkState(CursorOf(events, st.cursor), 0, policy.initialBackoff)
  }

  /** One more failure in a row. */
  function Later(st: SdkState, policy: Policy): SdkState {
    st.(attempt := st.attempt + 1, backoff := st.backoff * policy.multiplier)
  }

  function Resume(serve: Server, st: SdkState, attempts: seq<Attempt>, policy: Policy): SdkRun
    decreases |attempts|
  {
    if attempts == [] then SdkRun([], st.cursor, [], 0, Waiting)
    else if attempts[0].Refused? then SdkRun([], st.cursor, [], 1, ErrorRaised)
    else
      var events := serve(ServerSince(st.cursor), attempts[0]);
      var next := AfterEvents(st, events, policy);
      if !attempts[0].dropped then SdkRun(events, next.cursor, [], 1, Returned)
      else if next.attempt + 1 > policy.maxRetries then SdkRun(events, next.cursor, [], 1, Raised)
      else
        var rest := Resume(serve, Later(next, policy),
                           attempts[1..], policy);
        SdkRun(events + rest.events, rest.cursor, [MinReal(next.backoff, policy.maxBackoff)] + rest.waits,
               1 + rest.connections, rest.outcome)
  }

  /** The loop over one response's events. */
  method Consume(events: seq<Event>, st: SdkState, policy: Policy) returns (next: SdkState)
    ensures next == AfterEvents(st, events, policy)
  {
    next := st;
    for i := 0 to |events|
      invariant CursorOf(events, st.cursor) == CursorOf(events[i..], next.cursor)
      invariant if i == 0 then next == st else next.attempt == 0 && next.backoff == policy.initialBackoff
    {
      assert events[i..][0] == events[i] && events[i..][1..] == events[i + 1..];
      if !events[i].Start? {
        next := next.(cursor := Some(events[i].id));
      }
      next := next.(attempt := 0, backoff := policy.initialBackoff);
    }
  }

  /** The run so far, completed by resuming from here, is the whole run. */
  ghost predicate Resumes(serve: Server, st: SdkState, attempts: seq<Attempt>, policy: Policy, so: SdkRun,
      whole: SdkRun)
    requires so.connections <= |attempts|
  {
    whole == Prefixed(so, Resume(serve, st, attempts[so.connections..], policy))
  }

  function Prefixed(so: SdkRun, rest: SdkRun): SdkRun {
    SdkRun(so.events + rest.events, rest.cursor, so.waits + rest.waits, so.connections + rest.connections, rest.outcome)
  }

  /** One turn of the loop on its own. */
  function Attempted(serve: Server, st: SdkState, a: Attempt, policy: Policy): SdkRun {
    if a.Refused? then SdkRun([], st.cursor, [], 1, ErrorRaised)
    else
      var events := serve(ServerSince(st.cursor), a);
      var next := AfterEvents(st, events, policy);
      if !a.dropped then SdkRun(events, next.cursor, [], 1, Returned)
      else if next.attempt + 1 > policy.maxRetries then SdkRun(events, next.cursor, [], 1, Raised)
      else SdkRun(events, next.cursor, [MinReal(next.backoff, policy.maxBackoff)], 1, Waiting)
  }

  lemma AttemptedOnce(serve: Server, st: SdkState, attempts: seq<Attempt>, policy: Policy, so: SdkRun, whole: SdkRun)
    requires so.connections < |attempts| && Resumes(serve, st, attempts, policy, so, whole)
    ensures var once := Attempted(serve, st, attempts[so.connections], policy);
            if once.outcome != Waiting then whole == Prefixed(so, once)
            else
              var next := AfterEvents(st, once.events, policy);
              Resumes(serve, Later(next, policy), attempts, policy, Prefixed(so, once), whole)
  {
    assert attempts[so.connections..][1..] == attempts[so.connections + 1..];
    var once := Attempted(serve, st, attempts[so.connections], policy);
    if once.outcome == Waiting {
      var rest := Resume(serve, Later(AfterEvents(st, once.events, policy), policy), attempts[so.connections + 1..],
        policy);
      assert so.events + (once.events + rest.events) == so.events + once.events + rest.events;
      assert so.waits + (once.waits + rest.waits) == so.waits + once.waits + rest.waits;
    }
  }

  /** The body of the retry loop. */
  method AttemptOnce(serve: Server, st: SdkState, a: Attempt, policy: Policy) returns (once: SdkRun, next: SdkState)
    ensures once == Attempted(serve, st, a, policy)
    ensures once.outcome == Waiting ==> next == Later(AfterEvents(st, once.events, policy), policy)
  {
    next := st;
    if a.Refused? {
      return SdkRun([], st.cursor, [], 1, ErrorRaised), next;
    }
    var events := serve(ServerSince(st.cursor), a);
    next := Consume(events, st, policy);
    if !a.dropped {
      return SdkRun(events, next.cursor, [], 1, Returned), next;
    }
    next := next.(attempt := next.attempt + 1);
    if next.attempt > policy.maxRetries {
      return SdkRun(events, next.cursor, [], 1, Raised), next;
    }
    var wait := MinReal(next.backoff, policy.maxBackoff);
    next := next.(backoff := next.backoff * policy.multiplier);
    return SdkRun(events, next.cursor, [wait], 1, Waiting), next;
  }

  method StreamResumable(serve: Server, since: Option<int>, attempts: seq<Attempt>, policy: Policy)
      returns (run: SdkRun)
    ensures run == Resume(serve, SdkState(since, 0, policy.initialBackoff), attempts, policy)
  {
    var st := SdkState(since, 0, policy.initialBackoff);
    run := SdkRun([], since, [], 0, Waiting);
    ghost var whole := Resume(serve, st, attempts, policy);
    while run.connections < |attempts| && run.outcome == Waiting
      invariant run.connections <= |attempts|
      invariant run.outcome == Waiting ==> run.cursor == st.cursor && Resumes(serve, st, attempts, policy, run, whole)
      invariant run.outcome != Waiting ==> run == whole
      decreases |attempts| - run.connections
    {
      AttemptedOnce(serve, st, attempts, policy, run, whole);
      var once;
      once, st := AttemptOnce(serve, st, attempts[run.connections], policy);
      run := Prefixed(run, once);
    }
    if run.outcome == Waiting {
      assert attempts[run.connections..] == [];
    }
  }

  // ---- The retry budget ----

  function Power(x: real, k: nat): real {
    if k == 0 then 1.0 else x * Power(x, k - 1)
  }

  function Backoff(policy: Policy, k: nat): real {
    policy.initialBackoff * Power(policy.multiplier, k)
  }

  /** The backoff is the power the failure count calls for. */
  ghost predicate BackoffInStep(st: SdkState, policy: Policy) {
    st.attempt <= policy.maxRetries && st.backoff == Backoff(policy, st.attempt)
  }

  lemma BackoffStays(st: SdkState, events: seq<Event>, policy: Policy)
    requires BackoffInStep(st, policy)
    ensures var next := AfterEvents(st, events, policy);
            && BackoffInStep(next, policy)
            && (next.attempt < policy.maxRetries ==>
                  BackoffInStep(Later(next, policy), policy))
  {
    var next := AfterEvents(st, events, policy);
    var x, p := policy.multiplier, Power(policy.multiplier, next.attempt);
    assert policy.initialBackoff * p * x == policy.initialBackoff * (x * p);
  }

  lemma {:induction false} RetryBudgetFrom(serve: Server, st: SdkState, attempts: seq<Attempt>, policy: Policy)
    requires BackoffInStep(st, policy)
    ensures var run := Resume(serve, st, attempts, policy);
            run.connections + st.attempt <= Budget(|run.events|, policy.maxRetries)
    decreases |attempts|
  {
    var run := Resume(serve, st, attempts, policy);
    if attempts != [] && attempts[0].Served? {
      var events := serve(ServerSince(st.cursor), attempts[0]);
      var next := AfterEvents(st, events, policy);
      BackoffStays(st, events, policy);
      if attempts[0].dropped && next.attempt < policy.maxRetries {
        var later := Later(next, policy);
        var rest := Resume(serve, later, attempts[1..], policy);
        RetryBudgetFrom(serve, later, attempts[1..], policy);
        assert |run.events| == |events| + |rest.events|;
        BudgetGrows(|events|, |rest.events|, policy.maxRetries);
      } else {
        BudgetCovers(|events|, policy.maxRetries);
      }
    } else {
      BudgetCovers(0, policy.maxRetries);
    }
  }

  function Budget(events: nat, retries: nat): nat {
    (events + 1) * retries + 1
  }

  lemma BudgetCovers(n: nat, retries: nat)
    ensures retries + 1 <= Budget(n, retries)
  {
    assert (n + 1) * retries == n * retries + retries;
  }

  lemma BudgetGrows(n: nat, m: nat, retries: nat)
    ensures n > 0 ==> retries + Budget(m, retries) <= Budget(n + m, retries)
  {
    if n > 0 {
      assert (n + m + 1) * retries == (n - 1) * retries + retries + (m + 1) * retries;
      assert (n - 1) * retries >= 0;
    }
  }

  /** A run that delivers N events opens at most (N + 1) * max_retries + 1 connections. */
  lemma {:induction false} RetryBudget(serve: Server, since: Option<int>, attempts: seq<Attempt>, policy: Policy)
    ensures var run := Resume(serve, SdkState(since, 0, policy.initialBackoff), attempts, policy);
            run.connections <= (|run.events| + 1) * policy.maxRetries + 1
  {
    RetryBudgetFrom(serve, SdkState(since, 0, policy.initialBackoff), attempts, policy);
  }

  /** The events each opened connection delivered. */
  function Deliveries(serve: Server, st: SdkState, attempts: seq<Attempt>, policy: Policy): seq<seq<Event>>
    decreases |attempts|
  {
    if attempts == [] || attempts[0].Refused? then []
    else
      var events := serve(ServerSince(st.cursor), attempts[0]);
      var next := AfterEvents(st, events, policy);
      [events] +
      if !attempts[0].dropped || next.attempt + 1 > policy.maxRetries then []
      else Deliveries(serve, Later(next, policy),
                      attempts[1..], policy)
  }

  /**
   Failures in a row after `before` earlier ones, if every one of these
   connections is dropped: an event starts a new row.
   */
  function FailureStreak(before: nat, deliveries: seq<seq<Event>>): nat
    decreases |deliveries|
  {
    if deliveries == [] then before
    else FailureStreak(if deliveries[0] != [] then 1 else before + 1, deliveries[1..])
  }

  /**
   The k-th wait of a streak of failures is min(initial * multiplier^(k-1),
   max_backoff), and k stays within max_retries.
   */
  lemma {:induction false} WaitOfStreak(serve: Server, st: SdkState, attempts: seq<Attempt>, policy: Policy, i: nat)
    requires BackoffInStep(st, policy) && i < |Resume(serve, st, attempts, policy).waits|
    ensures i < |Deliveries(serve, st, attempts, policy)|
    ensures var k := FailureStreak(st.attempt, Deliveries(serve, st, attempts, policy)[..i + 1]);
            && 0 < k <= policy.maxRetries
            && Resume(serve, st, attempts, policy).waits[i]
               == MinReal(Backoff(policy, k - 1), policy.maxBackoff)
    decreases |attempts|
  {
    var events := serve(ServerSince(st.cursor), attempts[0]);
    var next := AfterEvents(st, events, policy);
    var d := Deliveries(serve, st, attempts, policy);
    BackoffStays(st, events, policy);
    var rest := Deliveries(serve, Later(next, policy), attempts[1..], policy);
    assert d == [events] + rest;
    if i > 0 {
      WaitOfStreak(serve, Later(next, policy), attempts[1..], policy, i - 1);
    }
    StreakOfMore(st.attempt, events, rest, i);
  }

  lemma {:induction false} StreakOfMore(before: nat, events: seq<Event>, rest: seq<seq<Event>>, i: nat)
    requires i <= |rest|
    ensures FailureStreak(before, ([events] + rest)[..i + 1])
         == FailureStreak(if events != [] then 1 else before + 1, rest[..i])
    ensures i == 0 ==> rest[..i] == []
  {
    assert ([events] + rest)[..i + 1] == [events] + rest[..i];
    FirstAndRest(events, rest[..i]);
  }

  /** The SDK raises exactly when the streak of failures passes max_retries. */
  lemma {:induction false} RaisesPastMaxRetries(serve: Server, st: SdkState, attempts: seq<Attempt>, policy: Policy)
    requires BackoffInStep(st, policy)
    ensures Resume(serve, st, attempts, policy).outcome == Raised ==>
              FailureStreak(st.attempt, Deliveries(serve, st, attempts, policy)) == policy.maxRetries + 1
    ensures Resume(serve, st, attempts, policy).outcome == Waiting ==>
              FailureStreak(st.attempt, Deliveries(serve, st, attempts, policy)) <= policy.maxRetries
    decreases |attempts|
  {
    if attempts != [] && attempts[0].Served? {
      var events := serve(ServerSince(st.cursor), attempts[0]);
      var next := AfterEvents(st, events, policy);
      BackoffStays(st, events, policy);
      if attempts[0].dropped {
        var retries := next.attempt < policy.maxRetries;
        var rest := if retries then Deliveries(serve, Later(next, policy), attempts[1..], policy) else [];
        assert Deliveries(serve, st, attempts, policy) == [events] + rest;
        assert ([events] + rest)[1..] == rest;
        if next.attempt < policy.maxRetries {
          RaisesPastMaxRetries(serve, Later(next, policy), attempts[1..], policy);
        }
      }
    }
  }

  // ---- How a run ends ----

  predicate IsDropped(a: Attempt) {
    a.Served? && a.dropped
  }

  /**
   Only a drop leads to another connection. A response that is not dropped ends
   the run with a return, and an error that is no drop is raised at once.
   */
  lemma {:induction false} HowItEnds(serve: Server, st: SdkState, attempts: seq<Attempt>, policy: Policy)
    ensures var run := Resume(serve, st, attempts, policy);
            var n := run.connections;
            && n <= |attempts| && (n == 0 <==> attempts == [])
            && (forall i | 0 <= i < n - 1 :: IsDropped(attempts[i]))
            && (n > 0 ==>
                  && (run.outcome == Returned <==> attempts[n - 1].Served? && !attempts[n - 1].dropped)
                  && (run.outcome == ErrorRaised <==> attempts[n - 1].Refused?)
                  && (run.outcome in {Raised, Waiting} <==> IsDropped(attempts[n - 1])))
            && (run.outcome == Waiting ==> n == |attempts|)
    decreases |attempts|
  {
    if attempts != [] && IsDropped(attempts[0]) {
      var next := AfterEvents(st, serve(ServerSince(st.cursor), attempts[0]), policy);
      var rest := attempts[1..];
      if next.attempt + 1 <= policy.maxRetries {
        HowItEnds(serve, Later(next, policy), rest, policy);
        assert forall i | 0 < i < |attempts| :: attempts[i] == rest[i - 1];
      }
    }
  }
}
