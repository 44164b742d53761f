/** Which rows the hand-written client misses, and when rows come to it again. */
module LineLosses {
  import opened Prelude
  import opened Json
  import opened StreamFormat
  import opened LogTail
  import opened TailProperties
  import opened Frames
  import opened Delivery
  import opened LineClient
  import opened LineDelivery
  import SdkDelivery

  lemma {:induction false} InBetween(log: seq<LogRow>, a: nat, b: nat)
    ensures forall row :: row in Between(log, a, b) <==> row in log && a < row.id <= b
  {
    if log != [] {
      InBetween(log[1..], a, b);
      assert forall row :: row in log <==> row == log[0] || row in log[1..];
    }
  }

  // ---- Rows that are missing ----

  /** The client that has not raised has been given every row up to its cursor. */
  ghost predicate HasAll(log: seq<LogRow>, r: Reading) {
    r.loop != Raises ==> forall row | row in Between(log, 0, Asked(r.id)) :: ToJson(RowEvent(row)) in r.events
  }

  ghost predicate AlwaysHasAll(codec: Codec, log: seq<LogRow>, r: Reading, responses: seq<Response>)
    decreases |responses|
  {
    HasAll(log, r)
    && (responses != [] ==> AlwaysHasAll(codec, log, AfterResponse(codec, log, r, responses[0]), responses[1..]))
  }

  /** The response passes a row that has not been given before. */
  ghost predicate PassesNewRow(codec: Codec, log: seq<LogRow>, r: Reading, a: Response) {
    && PassesRow(codec, log, Asked(r.id), a)
    && ToJson(StopItem(codec, log, Asked(r.id), a)) !in AfterResponse(codec, log, r, a).events
  }

  ghost predicate EverPassesNewRow(codec: Codec, log: seq<LogRow>, r: Reading, responses: seq<Response>)
    decreases |responses|
  {
    && responses != [] && r.loop == Goes
    && (|| PassesNewRow(codec, log, r, responses[0])
        || EverPassesNewRow(codec, log, AfterResponse(codec, log, r, responses[0]), responses[1..]))
  }

  lemma {:induction false} RowsInAreEvents(events: seq<Json>)
    ensures forall j :: j in RowsIn(events) <==> j in events && IsRowJson(j)
  {
    if events != [] {
      RowsInAreEvents(events[1..]);
      assert forall j :: j in events <==> j == events[0] || j in events[1..];
    }
  }

  /** All rows up to the last one given have been given. */
  lemma {:induction false} HasAllGiven(codec: Codec, log: seq<LogRow>, r: Reading, a: Response)
    requires codec.Valid() && codec.Delimited() && Increasing(log) && a.conn.start.Start? && r.loop == Goes && r.id >= 0
    requires HasAll(log, r)
    ensures var c := CursorOf(codec, log, r.id, a);
            forall row | row in Between(log, 0, c) :: ToJson(RowEvent(row)) in AfterResponse(codec, log, r, a).events
  {
    var next, c := AfterResponse(codec, log, r, a), CursorOf(codec, log, r.id, a);
    var more := Between(log, r.id, c);
    ResponseAddsRows(codec, log, r, a);
    ResponseEvents(codec, log, r, a);
    BetweenSplits(log, 0, r.id, c);
    RowsInAreEvents(next.events);
    forall row | row in Between(log, 0, c) ensures ToJson(RowEvent(row)) in next.events {
      if row in more {
        var i :| 0 <= i < |more| && more[i] == row;
        assert RowsAsJson(more)[i] == ToJson(RowEvent(row));
        assert ToJson(RowEvent(row)) in RowsIn(next.events);
      }
    }
  }

  /** Having been given every row up to c, the client has them all if it stands among the same rows. */
  lemma {:induction false} HasAllWhere(log: seq<LogRow>, r: Reading, c: nat)
    requires Increasing(log) && r.id >= 0 && (r.loop != Raises ==> Same(log, r.id, c))
    requires forall row | row in Between(log, 0, c) :: ToJson(RowEvent(row)) in r.events
    ensures HasAll(log, r)
  {
    if r.loop != Raises {
      SameRows(log, r.id, c);
    }
  }

  /** ... and behind the next row if and only if that one has been given before. */
  lemma {:induction false} HasAllBehind(log: seq<LogRow>, r: Reading, c: nat, e: Event)
    requires Increasing(log) && r.loop == Goes && e.IsRow() && Follows(log, c, e) && r.id == e.id
    requires forall row | row in Between(log, 0, c) :: ToJson(RowEvent(row)) in r.events
    ensures HasAll(log, r) <==> ToJson(e) in r.events
  {
    var rows := Between(log, c, e.id);
    BetweenSplits(log, 0, c, e.id);
    assert rows == [rows[0]];
    assert forall row :: row in Between(log, 0, e.id) <==> row in Between(log, 0, c) || row == rows[0];
  }

  lemma {:induction false} HasAllStanding(codec: Codec, log: seq<LogRow>, since: nat, a: Response, r: Reading)
    requires Increasing(log) && Stands(codec, log, since, a, r.id, r.loop)
    requires forall row | row in Between(log, 0, CursorOf(codec, log, since, a)) :: ToJson(RowEvent(row)) in r.events
    ensures HasAll(log, r) <==>
            !(PassesRow(codec, log, since, a) && ToJson(StopItem(codec, log, since, a)) !in r.events)
  {
    var c := CursorOf(codec, log, since, a);
    if PassesRow(codec, log, since, a) {
      HasAllBehind(log, r, c, StopItem(codec, log, since, a));
    } else if GoesBack(codec, log, since, a) {
      BetweenSplits(log, 0, r.id, c);
    } else {
      HasAllWhere(log, r, c);
    }
  }

  lemma {:induction false} ResponseKeepsAll(codec: Codec, log: seq<LogRow>, r: Reading, a: Response)
    requires codec.Valid() && codec.Delimited() && Increasing(log) && a.conn.start.Start? && r.loop == Goes && r.id >= 0
    requires HasAll(log, r)
    ensures var next := AfterResponse(codec, log, r, a);
            next.id >= 0 && (HasAll(log, next) <==> !PassesNewRow(codec, log, r, a))
  {
    HasAllGiven(codec, log, r, a);
    WhereItStands(codec, log, r, a);
    HasAllStanding(codec, log, r.id, a, AfterResponse(codec, log, r, a));
  }

  lemma {:induction false} StoppedHasAll(codec: Codec, log: seq<LogRow>, r: Reading, responses: seq<Response>)
    requires r.loop != Goes && HasAll(log, r)
    ensures AlwaysHasAll(codec, log, r, responses)
    decreases |responses|
  {
    if responses != [] {
      StoppedHasAll(codec, log, r, responses[1..]);
    }
  }

  lemma {:induction false} HasAllFrom(codec: Codec, log: seq<LogRow>, r: Reading, responses: seq<Response>)
    requires codec.Valid() && codec.Delimited() && Increasing(log) && AllStarted(responses)
    requires r.id >= 0 && HasAll(log, r)
    ensures AlwaysHasAll(codec, log, r, responses) <==> !EverPassesNewRow(codec, log, r, responses)
    decreases |responses|
  {
    if r.loop != Goes {
      StoppedHasAll(codec, log, r, responses);
    } else if responses != [] {
      var next := AfterResponse(codec, log, r, responses[0]);
      assert responses[0] in responses;
      ResponseKeepsAll(codec, log, r, responses[0]);
      if HasAll(log, next) {
        HasAllFrom(codec, log, next, responses[1..]);
      }
    }
  }

  /**
   All along no row up to the client's cursor is missing, if and only if no
   response ends cleanly between the last digit of the id and the data of a
   row that the client has not been given.
   */
  lemma {:induction false} MissesNothingIff(codec: Codec, log: seq<LogRow>, responses: seq<Response>)
    requires codec.Valid() && codec.Delimited() && Increasing(log) && AllStarted(responses)
    ensures AlwaysHasAll(codec, log, START, responses) <==> !EverPassesNewRow(codec, log, START, responses)
  {
    BetweenNothing(log, 0, 0);
    HasAllFrom(codec, log, START, responses);
  }

  // ---- Rows that come again ----

  function IdOf(j: Json): int {
    if j.JObj? && "id" in j.fields && j.fields["id"].JNum? then j.fields["id"].n else 0
  }

  /** Row after row, with ids that only grow: no row twice. */
  ghost predicate Ascending(rows: seq<Json>) {
    forall i, j | 0 <= i < j < |rows| :: IdOf(rows[i]) < IdOf(rows[j])
  }

  ghost predicate AlwaysAscending(codec: Codec, log: seq<LogRow>, r: Reading, responses: seq<Response>)
    decreases |responses|
  {
    Ascending(RowsIn(r.events))
    && (responses != [] ==> AlwaysAscending(codec, log, AfterResponse(codec, log, r, responses[0]), responses[1..]))
  }

  /** The client stands below a row it holds. */
  predicate StandsBelow(r: Reading) {
    exists j | j in RowsIn(r.events) :: Asked(r.id) < IdOf(j)
  }

  /** It asks from there, and a row gets through. */
  predicate GivesAgain(codec: Codec, log: seq<LogRow>, r: Reading, a: Response) {
    StandsBelow(r) && RowsIn(AfterResponse(codec, log, r, a).events) != RowsIn(r.events)
  }

  ghost predicate EverGivesAgain(codec: Codec, log: seq<LogRow>, r: Reading, responses: seq<Response>)
    decreases |responses|
  {
    && responses != [] && r.loop == Goes
    && (|| GivesAgain(codec, log, r, responses[0])
        || EverGivesAgain(codec, log, AfterResponse(codec, log, r, responses[0]), responses[1..]))
  }

  ghost predicate EverGoesBack(codec: Codec, log: seq<LogRow>, r: Reading, responses: seq<Response>)
    decreases |responses|
  {
    && responses != [] && r.loop == Goes
    && (|| GoesBack(codec, log, Asked(r.id), responses[0])
        || EverGoesBack(codec, log, AfterResponse(codec, log, r, responses[0]), responses[1..]))
  }

  /** These are the rows the client has been given, all from the log. */
  ghost predicate HasBeenGiven(log: seq<LogRow>, r: Reading, got: seq<LogRow>) {
    RowsIn(r.events) == RowsAsJson(got) && forall row | row in got :: row in log
  }

  lemma {:induction false} IdsOfRows(rows: seq<LogRow>)
    ensures forall i | 0 <= i < |rows| :: IdOf(RowsAsJson(rows)[i]) == rows[i].id
  {
    forall i | 0 <= i < |rows| ensures IdOf(RowsAsJson(rows)[i]) == rows[i].id {
      JsonFields(RowEvent(rows[i]));
    }
  }

  lemma {:induction false} IncreasingIs(rows: seq<LogRow>)
    ensures Increasing(rows) <==> forall i, j | 0 <= i < j < |rows| :: rows[i].id < rows[j].id
  {
    if rows != [] {
      var rest := rows[1..];
      IncreasingIs(rest);
      AllAboveIs(rest, rows[0].id);
      assert forall j | 0 < j < |rows| :: rows[j] == rest[j - 1];
      assert forall j | 0 <= j < |rest| :: rest[j] == rows[j + 1];
    }
  }

  lemma {:induction false} AllAboveIs(rows: seq<LogRow>, a: nat)
    ensures AllAbove(rows, a) <==> forall j | 0 <= j < |rows| :: a < rows[j].id
  {
    assert forall j | 0 <= j < |rows| :: rows[j] in rows;
  }

  lemma {:induction false} AscendingIsIncreasing(rows: seq<LogRow>)
    ensures Ascending(RowsAsJson(rows)) <==> Increasing(rows)
  {
    IdsOfRows(rows);
    IncreasingIs(rows);
  }

  lemma {:induction false} IncreasingAppend(a: seq<LogRow>, b: seq<LogRow>)
    ensures Increasing(a + b) <==>
            Increasing(a) && Increasing(b) && forall x, y | x in a && y in b :: x.id < y.id
  {
    if a == [] {
      assert a + b == b;
    } else {
      assert (a + b)[0] == a[0] && (a + b)[1..] == a[1..] + b;
      IncreasingAppend(a[1..], b);
      assert forall x :: x in a <==> x == a[0] || x in a[1..];
    }
  }

  lemma {:induction false} BetweenIncreases(log: seq<LogRow>, a: nat, b: nat)
    requires Increasing(log)
    ensures Increasing(Between(log, a, b))
  {
    if log != [] {
      var rest := Between(log[1..], a, b);
      BetweenIncreases(log[1..], a, b);
      InBetween(log[1..], a, b);
      if a < log[0].id <= b {
        FirstAndRest(log[0], rest);
      } else {
        assert [] + rest == rest;
      }
    }
  }

  lemma {:induction false} BelowIs(log: seq<LogRow>, r: Reading, got: seq<LogRow>)
    requires HasBeenGiven(log, r, got)
    ensures StandsBelow(r) <==> exists row | row in got :: Asked(r.id) < row.id
  {
    var rows := RowsAsJson(got);
    IdsOfRows(got);
    if row :| row in got && Asked(r.id) < row.id {
      var i :| 0 <= i < |got| && got[i] == row;
      assert rows[i] in rows;
    }
    if j :| j in rows && Asked(r.id) < IdOf(j) {
      var i :| 0 <= i < |rows| && rows[i] == j;
      assert got[i] in got;
    }
  }

  /** The rows behind `since`, added to rows of the log in order: still in order if none of those is behind `since`. */
  lemma {:induction false} MoreRowsIncrease(log: seq<LogRow>, got: seq<LogRow>, since: nat, c: nat)
    requires Increasing(log) && Increasing(got) && forall row | row in got :: row in log
    ensures var more := Between(log, since, c);
            Increasing(got + more) <==> more == [] || !exists row | row in got :: since < row.id
  {
    var more := Between(log, since, c);
    IncreasingAppend(got, more);
    BetweenIncreases(log, since, c);
    InBetween(log, since, c);
    if more != [] {
      assert more[0] in more;
      if row :| row in got && since < row.id {
        assert row.id <= c ==> row in more;
        assert more == [more[0]] + more[1..];
        assert more[0].id <= row.id;
      }
    }
  }

  lemma {:induction false} ResponseKeepsOrder(
    codec: Codec, log: seq<LogRow>, r: Reading, a: Response, got: seq<LogRow>)
    requires codec.Valid() && codec.Delimited() && Increasing(log) && a.conn.start.Start? && r.loop == Goes && r.id >= 0
    requires HasBeenGiven(log, r, got) && Increasing(got)
    ensures var next, c := AfterResponse(codec, log, r, a), CursorOf(codec, log, r.id, a);
            var more := Between(log, r.id, c);
            && next.id >= 0 && HasBeenGiven(log, next, got + more)
            && (Ascending(RowsIn(next.events)) <==> !GivesAgain(codec, log, r, a))
            && (Ascending(RowsIn(next.events)) <==> Increasing(got + more))
  {
    var next, c := AfterResponse(codec, log, r, a), CursorOf(codec, log, r.id, a);
    var more := Between(log, r.id, c);
    ResponseAddsRows(codec, log, r, a);
    WhereItStands(codec, log, r, a);
    RowsAsJsonAppend(got, more);
    InBetween(log, r.id, c);
    AscendingIsIncreasing(got + more);
    MoreRowsIncrease(log, got, r.id, c);
    BelowIs(log, r, got);
    AddsNothing(RowsAsJson(got), RowsAsJson(more));
  }

  lemma AddsNothing<T>(a: seq<T>, b: seq<T>)
    ensures a + b == a <==> b == []
  {
    assert |a + b| == |a| + |b|;
  }

  lemma {:induction false} StoppedAscends(codec: Codec, log: seq<LogRow>, r: Reading, responses: seq<Response>)
    requires r.loop != Goes && Ascending(RowsIn(r.events))
    ensures AlwaysAscending(codec, log, r, responses)
    decreases |responses|
  {
    if responses != [] {
      StoppedAscends(codec, log, r, responses[1..]);
    }
  }

  lemma {:induction false} AscendsFrom(
    codec: Codec, log: seq<LogRow>, r: Reading, responses: seq<Response>, got: seq<LogRow>)
    requires codec.Valid() && codec.Delimited() && Increasing(log) && AllStarted(responses)
    requires r.id >= 0 && HasBeenGiven(log, r, got) && Increasing(got)
    ensures AlwaysAscending(codec, log, r, responses) <==> !EverGivesAgain(codec, log, r, responses)
    decreases |responses|
  {
    AscendingIsIncreasing(got);
    if r.loop != Goes {
      StoppedAscends(codec, log, r, responses);
    } else if responses != [] {
      var next := AfterResponse(codec, log, r, responses[0]);
      var more := Between(log, r.id, CursorOf(codec, log, r.id, responses[0]));
      assert responses[0] in responses;
      ResponseKeepsOrder(codec, log, r, responses[0], got);
      if Increasing(got + more) {
        AscendsFrom(codec, log, next, responses[1..], got + more);
      }
    }
  }

  /**
   All along the rows come in id order and none comes twice, if and only if the
   client never asks below a row it holds and is given one.
   */
  lemma {:induction false} ComesOnceIff(codec: Codec, log: seq<LogRow>, responses: seq<Response>)
    requires codec.Valid() && codec.Delimited() && Increasing(log) && AllStarted(responses)
    ensures AlwaysAscending(codec, log, START, responses) <==> !EverGivesAgain(codec, log, START, responses)
  {
    assert RowsAsJson([]) == [] && RowsIn([]) == [];
    AscendsFrom(codec, log, START, responses, []);
  }

  // ---- Only an end inside digits leads back ----

  lemma {:induction false} ResponseKeepsAbove(
    codec: Codec, log: seq<LogRow>, r: Reading, a: Response, got: seq<LogRow>)
    requires codec.Valid() && codec.Delimited() && Increasing(log) && a.conn.start.Start? && r.loop == Goes && r.id >= 0
    requires HasBeenGiven(log, r, got) && forall row | row in got :: row.id <= r.id
    requires !GoesBack(codec, log, r.id, a)
    ensures var next, c := AfterResponse(codec, log, r, a), CursorOf(codec, log, r.id, a);
            && next.id >= 0 && HasBeenGiven(log, next, got + Between(log, r.id, c))
            && (next.loop == Goes ==> forall row | row in got + Between(log, r.id, c) :: row.id <= next.id)
  {
    var next, c := AfterResponse(codec, log, r, a), CursorOf(codec, log, r.id, a);
    var more := Between(log, r.id, c);
    ResponseAddsRows(codec, log, r, a);
    WhereItStands(codec, log, r, a);
    RowsAsJsonAppend(got, more);
    InBetween(log, r.id, c);
    if next.loop == Goes {
      InBetween(log, next.id, c);
    }
  }

  lemma {:induction false} NothingAgainFrom(
    codec: Codec, log: seq<LogRow>, r: Reading, responses: seq<Response>, got: seq<LogRow>)
    requires codec.Valid() && codec.Delimited() && Increasing(log) && AllStarted(responses)
    requires r.id >= 0 && HasBeenGiven(log, r, got)
    requires r.loop == Goes ==> forall row | row in got :: row.id <= r.id
    requires !EverGoesBack(codec, log, r, responses)
    ensures !EverGivesAgain(codec, log, r, responses)
    decreases |responses|
  {
    if r.loop == Goes && responses != [] {
      var next := AfterResponse(codec, log, r, responses[0]);
      var more := Between(log, r.id, CursorOf(codec, log, r.id, responses[0]));
      assert responses[0] in responses;
      BelowIs(log, r, got);
      ResponseKeepsAbove(codec, log, r, responses[0], got);
      NothingAgainFrom(codec, log, next, responses[1..], got + more);
    }
  }

  /** If no response ends cleanly inside digits that name a number below a row given, no row comes twice. */
  lemma {:induction false} OnlyDigitsLeadBack(codec: Codec, log: seq<LogRow>, responses: seq<Response>)
    requires codec.Valid() && codec.Delimited() && Increasing(log) && AllStarted(responses)
    ensures !EverGoesBack(codec, log, START, responses) ==> AlwaysAscending(codec, log, START, responses)
  {
    assert RowsAsJson([]) == [] && RowsIn([]) == [];
    ComesOnceIff(codec, log, responses);
    if !EverGoesBack(codec, log, START, responses) {
      NothingAgainFrom(codec, log, START, responses, []);
    }
  }
}
