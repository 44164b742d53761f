/**
 Which rows the hand-written client is given over any number of responses. It
 asks again only after a response that ends cleanly, and what such an end does
 to it depends on where in a frame it falls.
 */
module LineDelivery {
  import opened Prelude
  import opened Json
  import opened Decimal
  import opened StreamFormat
  import opened LogTail
  import opened TailProperties
  import opened Frames
  import opened Delivery
  import opened LineClient
  import SdkDelivery

  // ---- Where a response stops ----

  function GivenItems(codec: Codec, log: seq<LogRow>, since: nat, a: Response): seq<Item> {
    var items := ItemsOf(log, since, a);
    items[..GivenTo(codec, items, StopOf(codec, log, since, a), a.clean)]
  }

  /** The cursor of the rows given. */
  function CursorOf(codec: Codec, log: seq<LogRow>, since: nat, a: Response): nat {
    CursorAfter(GivenItems(codec, log, since, a), since)
  }

  /** It stops inside an item that is not given and has an id line. */
  predicate StopsInside(codec: Codec, log: seq<LogRow>, since: nat, a: Response) {
    var items, p := ItemsOf(log, since, a), StopOf(codec, log, since, a);
    GivenTo(codec, items, p, a.clean) == p.whole < |items| && CommitsId(items[p.whole])
  }

  function StopItem(codec: Codec, log: seq<LogRow>, since: nat, a: Response): (e: Event)
    requires StopsInside(codec, log, since, a)
    ensures !e.Start?
  {
    ItemsOf(log, since, a)[StopOf(codec, log, since, a).whole].event
  }

  /** So far into its frame all digits of the id have come and nothing behind "data: ". */
  predicate PastId(e: Event, j: nat)
    requires !e.Start?
  {
    |"id: " + Dec(e.id)| <= j < |"id: " + Dec(e.id)| + 1 + |"data: "|
  }

  /** ... and so far some of the digits, but not all, naming a number below a row before the cursor. */
  predicate NamesBelow(log: seq<LogRow>, cursor: nat, e: Event, j: nat)
    requires !e.Start?
  {
    |"id: "| < j < |"id: " + Dec(e.id)| && Between(log, Leading(e.id, j - |"id: "|), cursor) != []
  }

  /** A clean end between the last digit of a row's id and the text behind "data: ". */
  predicate PassesRow(codec: Codec, log: seq<LogRow>, since: nat, a: Response) {
    && a.clean && StopsInside(codec, log, since, a) && StopItem(codec, log, since, a).IsRow()
    && PastId(StopItem(codec, log, since, a), StopOf(codec, log, since, a).into)
  }

  /** A clean end inside the digits of an id: those that came name a number below a row given. */
  predicate GoesBack(codec: Codec, log: seq<LogRow>, since: nat, a: Response) {
    && a.clean && StopsInside(codec, log, since, a)
    && NamesBelow(log, CursorOf(codec, log, since, a), StopItem(codec, log, since, a),
                  StopOf(codec, log, since, a).into)
  }

  /** No row lies between the two cursors. */
  predicate Same(log: seq<LogRow>, a: nat, b: nat) {
    Between(log, a, b) == [] && Between(log, b, a) == []
  }

  /** The next item is the row behind the cursor, or none. */
  ghost predicate Follows(log: seq<LogRow>, c: nat, e: Event)
    requires !e.Start?
  {
    if e.IsRow() then c < e.id && |Between(log, c, e.id)| == 1 && RowEvent(Between(log, c, e.id)[0]) == e
    else Same(log, c, e.id)
  }

  /** Behind a faithful prefix a row is the next one of the log; anything else stands among the same rows. */
  lemma {:induction false} NextItem(log: seq<LogRow>, since: nat, items: seq<Item>, m: nat)
    requires Increasing(log) && m < |items| && CommitsId(items[m])
    requires Faithful(log, since, items[..m]) && Faithful(log, since, items[..m + 1])
    ensures Follows(log, CursorAfter(items[..m], since), items[m].event)
  {
    var c, e := CursorAfter(items[..m], since), items[m].event;
    assert items[..m + 1] == items[..m] + [items[m]];
    ItemsAppendParts(items[..m], [items[m]], since);
    CursorOfOne(items[m], c);
    RowsOnlyAppend(EventsIn(items[..m]), EventsIn([items[m]]));
    var here := if e.IsRow() then [e] else [];
    assert RowEvents(Between(log, since, e.id)) == RowEvents(Between(log, since, c)) + here;
    BetweenNothing(log, Max(c, e.id), Min(c, e.id));
    if e.id <= c {
      BetweenSplits(log, since, e.id, c);
      assert |Between(log, since, e.id)| == |Between(log, since, c)| + |here|;
    } else {
      BetweenSplits(log, since, c, e.id);
      RowEventsAppend(Between(log, since, c), Between(log, c, e.id));
      SuffixIs(RowEvents(Between(log, since, c)), RowEvents(Between(log, c, e.id)), here);
      assert here != [] ==> RowEvents(Between(log, c, e.id))[0] == RowEvent(Between(log, c, e.id)[0]);
    }
  }

  lemma SuffixIs<T>(a: seq<T>, b: seq<T>, c: seq<T>)
    requires a + b == a + c
    ensures b == c
  {
    assert b == (a + b)[|a|..] && c == (a + c)[|a|..];
  }

  /** A number below the next row's id and not below the cursor stands among the same rows as the cursor. */
  lemma {:induction false} BelowNextRow(log: seq<LogRow>, c: nat, n: nat, id: nat)
    requires Increasing(log) && c <= n < id && |Between(log, c, id)| == 1 && Between(log, c, id)[0].id == id
    ensures Same(log, c, n)
  {
    BetweenSplits(log, c, n, id);
    SdkDelivery.BetweenWithin(log, c, n);
    BetweenNothing(log, n, c);
  }

  lemma {:induction false} AmongTheSame(log: seq<LogRow>, c: nat, n: nat, id: nat)
    requires Increasing(log) && c <= n <= id && Same(log, c, id)
    ensures Same(log, c, n)
  {
    BetweenSplits(log, c, n, id);
    BetweenNothing(log, n, c);
  }

  // ---- What one response adds, and where the client stands after it ----

  function RowsIn(events: seq<Json>): seq<Json> {
    Collect((j: Json) => if IsRowJson(j) then [j] else [], events)
  }

  lemma {:induction false} JsonIsRow(e: Event)
    ensures IsRowJson(ToJson(e)) <==> e.IsRow()
  {
    JsonFields(e);
    RowTypeNames(e);
  }

  lemma {:induction false} RowsInFirst(j: Json, rest: seq<Json>)
    ensures RowsIn([j] + rest) == (if IsRowJson(j) then [j] else []) + RowsIn(rest)
  {
    FirstAndRest(j, rest);
  }

  lemma AsJsonFirst(e: Event, rest: seq<Event>)
    ensures AsJson([e] + rest) == [ToJson(e)] + AsJson(rest)
  {
  }

  lemma {:induction false} RowsInJson(events: seq<Event>)
    ensures RowsIn(AsJson(events)) == AsJson(RowsOnly(events))
  {
    if events != [] {
      var e, rest := events[0], events[1..];
      assert events == [e] + rest;
      RowsInJson(rest);
      JsonIsRow(e);
      AsJsonFirst(e, rest);
      RowsInFirst(ToJson(e), AsJson(rest));
      if e.IsRow() {
        AsJsonFirst(e, RowsOnly(rest));
      } else {
        assert [] + RowsOnly(rest) == RowsOnly(rest) && [] + RowsIn(AsJson(rest)) == RowsIn(AsJson(rest));
      }
    }
  }

  lemma {:induction false} ResponseEvents(codec: Codec, log: seq<LogRow>, r: Reading, a: Response)
    requires codec.Valid() && codec.Delimited() && a.conn.start.Start? && r.loop == Goes && r.id >= 0
    ensures AfterResponse(codec, log, r, a).events == r.events + AsJson(EventsIn(GivenItems(codec, log, r.id, a)))
  {
    ResponseRead(codec, log, r, a);
  }

  lemma {:induction false} RowsInAppend(events: seq<Json>, more: seq<Event>)
    ensures RowsIn(events + AsJson(more)) == RowsIn(events) + AsJson(RowsOnly(more))
  {
    CollectAppend((j: Json) => if IsRowJson(j) then [j] else [], events, AsJson(more));
    RowsInJson(more);
  }

  lemma {:induction false} RowEventsAsJson(rows: seq<LogRow>)
    ensures AsJson(RowEvents(rows)) == RowsAsJson(rows)
  {
  }

  /** The response adds to the rows held exactly those between what was asked for and the last one given. */
  lemma {:induction false} ResponseAddsRows(codec: Codec, log: seq<LogRow>, r: Reading, a: Response)
    requires codec.Valid() && codec.Delimited() && Increasing(log) && a.conn.start.Start? && r.loop == Goes && r.id >= 0
    ensures var next, c := AfterResponse(codec, log, r, a), CursorOf(codec, log, r.id, a);
            r.id <= c && RowsIn(next.events) == RowsIn(r.events) + RowsAsJson(Between(log, r.id, c))
  {
    var items := GivenItems(codec, log, r.id, a);
    ResponseEvents(codec, log, r, a);
    StreamFaithful(log, r.id, a.conn, |items|);
    RowsInAppend(r.events, EventsIn(items));
    RowEventsAsJson(Between(log, r.id, CursorAfter(items, r.id)));
  }

  lemma {:induction false} NumberStands(log: seq<LogRow>, c: nat, e: Event, n: nat)
    requires !e.Start? && Increasing(log) && Follows(log, c, e) && n <= e.id && (n == e.id ==> !e.IsRow())
    ensures Same(log, n, c) || (n < c && Between(log, n, c) != [])
  {
    BetweenNothing(log, Max(n, c), Min(n, c));
    if c <= n && e.IsRow() {
      BelowNextRow(log, c, n, e.id);
    } else if c <= n {
      AmongTheSame(log, c, n, e.id);
    }
  }

  /** Where the part of an item that is not given leaves the client. */
  lemma {:induction false} PartStands(codec: Codec, log: seq<LogRow>, c: nat, item: Item, j: nat)
    requires Increasing(log) && CommitsId(item) && Follows(log, c, item.event)
    requires !Chokes(codec, item, j, true) && !BodyGiven(codec, item, j, true)
    ensures var n, e := IdAt(item, j, true, c), item.event;
            && n >= 0
            && (e.IsRow() && PastId(e, j) ==> n == e.id)
            && (NamesBelow(log, c, e, j) ==> n < c && Between(log, n, c) != [])
            && (!(e.IsRow() && PastId(e, j)) && !NamesBelow(log, c, e, j) ==> Same(log, n, c))
  {
    var n := IdAt(item, j, true, c);
    BetweenNothing(log, c, c);
    if j > 4 {
      BetweenNothing(log, Max(n, c), Min(n, c));
      if !(item.event.IsRow() && |IdLine(item)| <= j) {
        NumberStands(log, c, item.event, n);
      }
    }
  }

  lemma {:induction false} StoppedInside(codec: Codec, log: seq<LogRow>, r: Reading, a: Response)
    requires codec.Valid() && codec.Delimited() && a.conn.start.Start? && r.loop == Goes && r.id >= 0
    requires StopsInside(codec, log, r.id, a)
    ensures var next, p := AfterResponse(codec, log, r, a), StopOf(codec, log, r.id, a);
            var item := ItemsOf(log, r.id, a)[p.whole];
            && next.loop == (if !a.clean || Chokes(codec, item, p.into, true) then Raises else Goes)
            && next.id == IdAt(item, p.into, a.clean, CursorOf(codec, log, r.id, a))
  {
    var items, p := ItemsOf(log, r.id, a), StopOf(codec, log, r.id, a);
    ResponseRead(codec, log, r, a);
    ConnectionClosesAtMostLast(log, r.id, a.conn);
    assert p.whole > 0 ==> items[..p.whole][p.whole - 1] == items[p.whole - 1];
  }

  lemma {:induction false} StoppedElsewhere(codec: Codec, log: seq<LogRow>, r: Reading, a: Response)
    requires codec.Valid() && codec.Delimited() && a.conn.start.Start? && r.loop == Goes && r.id >= 0
    requires !StopsInside(codec, log, r.id, a)
    ensures AfterResponse(codec, log, r, a).id == CursorOf(codec, log, r.id, a)
  {
    ResponseRead(codec, log, r, a);
  }

  /** Where the client stands: behind the rows given, unless it has read more or less than that from an id line. */
  ghost predicate Stands(codec: Codec, log: seq<LogRow>, since: nat, a: Response, id: int, loop: Loop) {
    var c := CursorOf(codec, log, since, a);
    && id >= 0
    && (PassesRow(codec, log, since, a) ==>
          loop == Goes && id == StopItem(codec, log, since, a).id && Follows(log, c, StopItem(codec, log, since, a)))
    && (GoesBack(codec, log, since, a) ==> loop == Goes && id < c && Between(log, id, c) != [])
    && (loop != Raises && !PassesRow(codec, log, since, a) && !GoesBack(codec, log, since, a) ==> Same(log, id, c))
  }

  lemma {:induction false} StandsInside(
    codec: Codec, log: seq<LogRow>, since: nat, a: Response, item: Item, id: int, loop: Loop)
    requires Increasing(log) && a.conn.start.Start? && StopsInside(codec, log, since, a)
    requires item == ItemsOf(log, since, a)[StopOf(codec, log, since, a).whole]
    requires loop == if !a.clean || Chokes(codec, item, StopOf(codec, log, since, a).into, true) then Raises else Goes
    requires id == IdAt(item, StopOf(codec, log, since, a).into, a.clean, CursorOf(codec, log, since, a))
    ensures Stands(codec, log, since, a, id, loop)
  {
    var p := StopOf(codec, log, since, a);
    ChokesElsewhere(codec, log, CursorOf(codec, log, since, a), item, p.into);
    if loop == Goes {
      FollowsPrefix(log, since, a.conn, p.whole);
      PartStands(codec, log, CursorOf(codec, log, since, a), item, p.into);
    }
  }

  lemma {:induction false} WhereItStands(codec: Codec, log: seq<LogRow>, r: Reading, a: Response)
    requires codec.Valid() && codec.Delimited() && Increasing(log) && a.conn.start.Start? && r.loop == Goes && r.id >= 0
    ensures var next := AfterResponse(codec, log, r, a); Stands(codec, log, r.id, a, next.id, next.loop)
  {
    var next, c := AfterResponse(codec, log, r, a), CursorOf(codec, log, r.id, a);
    if StopsInside(codec, log, r.id, a) {
      var item := ItemsOf(log, r.id, a)[StopOf(codec, log, r.id, a).whole];
      StoppedInside(codec, log, r, a);
      StandsInside(codec, log, r.id, a, item, next.id, next.loop);
    } else {
      StoppedElsewhere(codec, log, r, a);
      BetweenNothing(log, c, c);
    }
  }

  lemma {:induction false} FollowsPrefix(log: seq<LogRow>, since: nat, conn: Connection, m: nat)
    requires Increasing(log) && conn.start.Start? && m < |ConnectionItems(log, since, conn)|
    requires CommitsId(ConnectionItems(log, since, conn)[m])
    ensures var items := ConnectionItems(log, since, conn);
            Follows(log, CursorAfter(items[..m], since), items[m].event)
  {
    StreamFaithful(log, since, conn, m);
    StreamFaithful(log, since, conn, m + 1);
    NextItem(log, since, ConnectionItems(log, since, conn), m);
  }

  lemma {:induction false} ChokesElsewhere(codec: Codec, log: seq<LogRow>, c: nat, item: Item, j: nat)
    requires CommitsId(item)
    ensures PastId(item.event, j) || NamesBelow(log, c, item.event, j) ==> !Chokes(codec, item, j, true)
  {
  }

  // ---- Every row up to the cursor, once ----

  ghost predicate AllStarted(responses: seq<Response>) {
    forall a | a in responses :: a.conn.start.Start?
  }

  /** The client that has not raised holds exactly the rows up to its cursor, each once, in order. */
  ghost predicate Exact(log: seq<LogRow>, r: Reading) {
    r.loop != Raises ==> RowsIn(r.events) == RowsAsJson(Between(log, 0, Asked(r.id)))
  }

  ghost predicate AlwaysExact(codec: Codec, log: seq<LogRow>, r: Reading, responses: seq<Response>)
    decreases |responses|
  {
    Exact(log, r)
    && (responses != [] ==> AlwaysExact(codec, log, AfterResponse(codec, log, r, responses[0]), responses[1..]))
  }

  /** Some response that the client asked for ends at a wrong place. */
  ghost predicate EverEndsWrong(codec: Codec, log: seq<LogRow>, r: Reading, responses: seq<Response>)
    decreases |responses|
  {
    && responses != [] && r.loop == Goes
    && (|| PassesRow(codec, log, Asked(r.id), responses[0]) || GoesBack(codec, log, Asked(r.id), responses[0])
        || EverEndsWrong(codec, log, AfterResponse(codec, log, r, responses[0]), responses[1..]))
  }

  lemma {:induction false} SameRows(log: seq<LogRow>, a: nat, b: nat)
    requires Increasing(log) && Same(log, a, b)
    ensures Between(log, 0, a) == Between(log, 0, b)
  {
    if a <= b {
      BetweenSplits(log, 0, a, b);
    } else {
      BetweenSplits(log, 0, b, a);
    }
  }

  lemma {:induction false} ResponseStaysExact(codec: Codec, log: seq<LogRow>, r: Reading, a: Response)
    requires codec.Valid() && codec.Delimited() && Increasing(log) && a.conn.start.Start? && r.loop == Goes && r.id >= 0
    requires Exact(log, r)
    ensures var next := AfterResponse(codec, log, r, a);
            next.id >= 0
            && (Exact(log, next) <==> !PassesRow(codec, log, r.id, a) && !GoesBack(codec, log, r.id, a))
  {
    var next, c := AfterResponse(codec, log, r, a), CursorOf(codec, log, r.id, a);
    ResponseAddsRows(codec, log, r, a);
    WhereItStands(codec, log, r, a);
    BetweenSplits(log, 0, r.id, c);
    RowsAsJsonAppend(Between(log, 0, r.id), Between(log, r.id, c));
    ExactWhere(log, next, c);
  }

  /** Holding the rows up to c, the client is exact if and only if no row lies between c and its cursor. */
  lemma {:induction false} ExactWhere(log: seq<LogRow>, r: Reading, c: nat)
    requires Increasing(log) && r.id >= 0 && RowsIn(r.events) == RowsAsJson(Between(log, 0, c))
    ensures Exact(log, r) <==> r.loop == Raises || Same(log, r.id, c)
  {
    SameCount(log, r.id, c);
    if r.loop != Raises && Same(log, r.id, c) {
      SameRows(log, r.id, c);
    }
    assert |RowsAsJson(Between(log, 0, r.id))| == |Between(log, 0, r.id)|;
    assert |RowsAsJson(Between(log, 0, c))| == |Between(log, 0, c)|;
  }

  lemma {:induction false} SameCount(log: seq<LogRow>, a: nat, b: nat)
    requires Increasing(log)
    ensures Same(log, a, b) <==> |Between(log, 0, a)| == |Between(log, 0, b)|
  {
    BetweenNothing(log, Max(a, b), Min(a, b));
    if a <= b {
      BetweenSplits(log, 0, a, b);
    } else {
      BetweenSplits(log, 0, b, a);
    }
  }

  lemma {:induction false} StoppedIsExact(codec: Codec, log: seq<LogRow>, r: Reading, responses: seq<Response>)
    requires r.loop != Goes && Exact(log, r)
    ensures AlwaysExact(codec, log, r, responses)
    decreases |responses|
  {
    if responses != [] {
      StoppedIsExact(codec, log, r, responses[1..]);
    }
  }

  lemma {:induction false} ExactFrom(codec: Codec, log: seq<LogRow>, r: Reading, responses: seq<Response>)
    requires codec.Valid() && codec.Delimited() && Increasing(log) && AllStarted(responses)
    requires r.id >= 0 && Exact(log, r)
    ensures AlwaysExact(codec, log, r, responses) <==> !EverEndsWrong(codec, log, r, responses)
    decreases |responses|
  {
    if r.loop != Goes {
      StoppedIsExact(codec, log, r, responses);
    } else if responses != [] {
      var next := AfterResponse(codec, log, r, responses[0]);
      assert responses[0] in responses;
      ResponseStaysExact(codec, log, r, responses[0]);
      if Exact(log, next) {
        ExactFrom(codec, log, next, responses[1..]);
      }
    }
  }

  lemma {:induction false} StartIsExact(log: seq<LogRow>)
    ensures Exact(log, START) && RowsIn(START.events) == []
  {
    BetweenNothing(log, 0, 0);
  }

  /**
   Over any responses, stopping after any number of characters, cleanly or not:
   all along the client holds exactly the rows up to its cursor, each once, in
   id order, if and only if no response ends cleanly behind the last digit of
   a row's id and before its data, nor inside digits that name a number below
   a row already given.
   */
  lemma {:induction false} ExactIff(codec: Codec, log: seq<LogRow>, responses: seq<Response>)
    requires codec.Valid() && codec.Delimited() && Increasing(log) && AllStarted(responses)
    ensures AlwaysExact(codec, log, START, responses) <==> !EverEndsWrong(codec, log, START, responses)
  {
    StartIsExact(log);
    ExactFrom(codec, log, START, responses);
  }
}
