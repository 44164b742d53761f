/** Two runs of the hand-written client: one in which it never gets a row, and one in which it gets a row twice. */
module LineRuns {
  import opened Prelude
  import opened Json
  import opened Decimal
  import opened Protocol
  import opened StreamFormat
  import opened LogTail
  import opened TailProperties
  import opened Frames
  import opened Delivery
  import opened LineClient
  import opened LineDelivery

  // ---- A response that ends in its third frame, or at its end ----

  lemma {:induction false} ThreeFrames(codec: Codec, x: Item, y: Item, z: Item, j: nat)
    requires j < |FrameText(codec, z)|
    ensures var text, k := StreamText(codec, [x, y, z]), |FrameText(codec, x)| + |FrameText(codec, y)| + j;
            k <= |text| && text[..k] == FrameText(codec, x) + (FrameText(codec, y) + FrameText(codec, z)[..j])
  {
    OneFrame(codec, z);
    FrameBefore(codec, y, [z]);
    FrameBefore(codec, x, [y, z]);
    assert [x] + [y, z] == [x, y, z] && [y] + [z] == [y, z];
    ThreeTexts(FrameText(codec, x), FrameText(codec, y), FrameText(codec, z), j);
  }

  lemma {:induction false} OneFrame(codec: Codec, item: Item)
    ensures StreamText(codec, [item]) == FrameText(codec, item)
  {
    assert [item][1..] == [] && StreamText(codec, []) == "";
    assert FrameText(codec, item) + "" == FrameText(codec, item);
  }

  lemma {:induction false} FrameBefore(codec: Codec, first: Item, rest: seq<Item>)
    ensures StreamText(codec, [first] + rest) == FrameText(codec, first) + StreamText(codec, rest)
  {
    FirstAndRest(first, rest);
  }

  lemma ThreeTexts(a: string, b: string, c: string, j: nat)
    requires j < |c|
    ensures (a + (b + c))[..|a| + |b| + j] == a + (b + c[..j])
  {
  }

  lemma {:induction false} EndsInThird(codec: Codec, r: Reading, x: Item, y: Item, z: Item, j: nat)
    requires codec.Valid() && codec.Delimited() && j < |FrameText(codec, z)|
    requires r.loop == WholeRead(r, x).loop == WholeRead(WholeRead(r, x), y).loop == Goes
    ensures var text := FrameText(codec, x) + (FrameText(codec, y) + FrameText(codec, z)[..j]);
            Fold(Taker(codec), r, LinesGiven(text, true))
            == PartRead(codec, WholeRead(WholeRead(r, x), y), z, j, true)
  {
    FrameFolded(codec, r, x, FrameText(codec, y) + FrameText(codec, z)[..j], true);
    FrameFolded(codec, WholeRead(r, x), y, FrameText(codec, z)[..j], true);
    CutFrameFolded(codec, WholeRead(WholeRead(r, x), y), z, j, true);
  }

  lemma {:induction false} StopIsTheEnd(codec: Codec, items: seq<Item>)
    ensures PlaceOf(FrameSize(codec), items, |StreamText(codec, items)|) == Place(|items|, 0)
  {
    if items != [] {
      StopIsTheEnd(codec, items[1..]);
    }
  }

  lemma {:induction false} ComesWhole(codec: Codec, log: seq<LogRow>, r: Reading, a: Response)
    requires codec.Valid() && codec.Delimited() && a.conn.start.Start? && r.loop == Goes && r.id >= 0 && a.clean
    requires a.conn.cut == |StreamText(codec, ItemsOf(log, r.id, a))|
    ensures AfterResponse(codec, log, r, a) == Given(r.events, r.id, ItemsOf(log, r.id, a))
  {
    var items := ItemsOf(log, r.id, a);
    StopIsTheEnd(codec, items);
    ResponseRead(codec, log, r, a);
    assert items[..|items|] == items;
  }

  lemma {:induction false} TwoResponses(codec: Codec, log: seq<LogRow>, r: Reading, a: Response, b: Response)
    ensures Follow(codec, log, r, [a, b]) == AfterResponse(codec, log, AfterResponse(codec, log, r, a), b)
  {
    assert [a, b][1..] == [b] && [b][1..] == [];
    assert Follow(codec, log, AfterResponse(codec, log, r, a), [b])
        == AfterResponse(codec, log, AfterResponse(codec, log, r, a), b);
  }

  // ---- The streams ----

  function StageRow(id: nat): LogRow {
    LogRow(id, StageKind, "", "", "env_file", "started", None, None, None)
  }

  function Sent(id: nat): Event {
    RowEvent(StageRow(id))
  }

  const SEES_TWO := Poll(2, 0.0, Some(SessionView(Running, None)), 0.0)

  /** The log is [2, 12]; both rows are sent to whoever asks below 2, none to whoever asks from 12. */
  function TwoRows(): seq<LogRow> {
    [StageRow(2), StageRow(12)]
  }

  function Stream(start: Event, since: nat): seq<Item> {
    if since < 2 then [Ev(start), Ev(Sent(2)), Ev(Sent(12))]
    else if since < 12 then [Ev(start), Ev(Sent(12))]
    else [Ev(start)]
  }

  /** The rows behind `since`, and their events. */
  function RowsBehind(since: nat): seq<LogRow> {
    if since < 2 then TwoRows() else if since < 12 then [StageRow(12)] else []
  }

  function EventsBehind(since: nat): seq<Event> {
    if since < 2 then [Sent(2), Sent(12)] else if since < 12 then [Sent(12)] else []
  }

  lemma {:induction false} RowsAbove(since: nat)
    ensures Above(TwoRows(), since) == RowsBehind(since)
  {
    var log := TwoRows();
    assert log[1..] == [StageRow(12)] && log[1..][1..] == [];
    assert Above(log[1..], since) == if since < 12 then [StageRow(12)] else [];
  }

  lemma {:induction false} RowsFormatted(since: nat)
    ensures FormatRows(RowsBehind(since), None) == EventsBehind(since)
  {
    assert TwoRows()[1..] == [StageRow(12)] && [StageRow(12)][1..] == [];
    assert FormatRows([StageRow(12)], None) == [Sent(12)] + [] == [Sent(12)];
  }

  lemma {:induction false} StreamIs(start: Event, since: nat, cut: nat)
    ensures ConnectionItems(TwoRows(), since, Connection(start, 0.0, [SEES_TWO], cut)) == Stream(start, since)
  {
    var log, st := TwoRows(), StartState(since, 0.0);
    RowsAbove(since);
    RowsFormatted(since);
    assert log[..2] == log && [SEES_TWO][1..] == [];
    assert PollItems(log, st, SEES_TWO) == Items(EventsBehind(since)) + [];
    assert Tail(log, st, [SEES_TWO]).items == Items(EventsBehind(since)) + [];
    assert [Ev(start)] + Items(EventsBehind(since)) == Stream(start, since);
  }

  /** A response that ends cleanly j characters into the frame of row 12, and one that ends where the stream does. */
  function EndsInTwelve(codec: Codec, start: Event, j: nat): Response {
    var cut := |FrameText(codec, Ev(start))| + |FrameText(codec, Ev(Sent(2)))| + j;
    Response(Connection(start, 0.0, [SEES_TWO], cut), true)
  }

  function Uncut(codec: Codec, start: Event, since: nat): Response {
    Response(Connection(start, 0.0, [SEES_TWO], |StreamText(codec, Stream(start, since))|), true)
  }

  lemma {:induction false} RowsAmong(start: Event)
    requires start.Start?
    ensures RowsOnly(EventsIn([Ev(start)])) == []
    ensures RowsOnly(EventsIn([Ev(start), Ev(Sent(2))])) == [Sent(2)]
    ensures RowsOnly(EventsIn([Ev(start), Ev(Sent(2)), Ev(Sent(12))])) == [Sent(2), Sent(12)]
  {
    var a, b, c := Ev(start), Ev(Sent(2)), Ev(Sent(12));
    CursorOfOne(a, 0);
    CursorOfOne(b, 0);
    CursorOfOne(c, 0);
    assert [a, b] == [a] + [b] && [a, b, c] == [a, b] + [c];
    ItemsAppendParts([a], [b], 0);
    ItemsAppendParts([a, b], [c], 0);
    RowsOnlyAppend(EventsIn([a]), EventsIn([b]));
    RowsOnlyAppend(EventsIn([a, b]), EventsIn([c]));
  }

  lemma {:induction false} RowsAfter(r: Reading, items: seq<Item>, rows: seq<Event>)
    requires r.id >= 0 && RowsOnly(EventsIn(items)) == rows
    ensures RowsIn(Given(r.events, r.id, items).events) == RowsIn(r.events) + AsJson(rows)
  {
    RowsInAppend(r.events, EventsIn(items));
  }

  lemma {:induction false} RowsAsTexts()
    ensures AsJson([]) == [] && AsJson([Sent(2)]) == [ToJson(Sent(2))]
    ensures AsJson([Sent(2), Sent(12)]) == [ToJson(Sent(2)), ToJson(Sent(12))]
  {
  }

  // ---- The end inside the frame of row 12 ----

  lemma {:induction false} TwelveIs()
    ensures Dec(12) == "12" && Leading(12, 1) == 1 && Leading(12, 2) == 12
  {
    assert Dec(1) == "1" && Dec(12) == Dec(1) + "2";
  }

  /** Five characters of its frame are "id: 1", six are "id: 12". */
  lemma {:induction false} PartOfTwelve(codec: Codec, r: Reading, j: nat)
    requires j in {5, 6}
    ensures var item := Ev(Sent(12));
            && j < |FrameText(codec, item)| && !BodyGiven(codec, item, j, true)
            && PartRead(codec, r, item, j, true) == r.(id := if j == 5 then 1 else 12)
  {
    TwelveIs();
    assert IdLine(Ev(Sent(12))) == "id: 12";
  }

  lemma {:induction false} RowTwoRead(start: Event)
    requires start.Start?
    ensures var one, two := WholeRead(START, Ev(start)), WholeRead(WholeRead(START, Ev(start)), Ev(Sent(2)));
            one.loop == two.loop == Goes && RowsIn(two.events) == AsJson([Sent(2)])
  {
    var items := [Ev(start), Ev(Sent(2))];
    assert items == [Ev(start)] + [Ev(Sent(2))];
    GivenOne([], 0, Ev(start));
    OneMoreGiven([], 0, [Ev(start)], Ev(Sent(2)));
    RowsAmong(start);
    RowsAfter(START, items, [Sent(2)]);
    assert RowsIn([]) == [] && [] + AsJson([Sent(2)]) == AsJson([Sent(2)]);
  }

  lemma {:induction false} ArrivesUpToTwelve(codec: Codec, start: Event, j: nat)
    requires j < |FrameText(codec, Ev(Sent(12)))|
    ensures Arrived(codec, TwoRows(), 0, EndsInTwelve(codec, start, j))
         == FrameText(codec, Ev(start)) + (FrameText(codec, Ev(Sent(2))) + FrameText(codec, Ev(Sent(12)))[..j])
  {
    StreamIs(start, 0, EndsInTwelve(codec, start, j).conn.cut);
    ThreeFrames(codec, Ev(start), Ev(Sent(2)), Ev(Sent(12)), j);
  }

  /** Row 2 has been given, and the client goes on from 1 or from 12. */
  lemma {:induction false} AfterTwelve(codec: Codec, start: Event, j: nat)
    requires codec.Valid() && codec.Delimited() && start.Start? && j in {5, 6}
    ensures var r := AfterResponse(codec, TwoRows(), START, EndsInTwelve(codec, start, j));
            r.loop == Goes && r.id == (if j == 5 then 1 else 12) && RowsIn(r.events) == AsJson([Sent(2)])
  {
    var two := WholeRead(WholeRead(START, Ev(start)), Ev(Sent(2)));
    ArrivesUpToTwelve(codec, start, j);
    RowTwoRead(start);
    PartOfTwelve(codec, two, j);
    EndsInThird(codec, START, Ev(start), Ev(Sent(2)), Ev(Sent(12)), j);
  }

  lemma {:induction false} StreamComesWhole(codec: Codec, start: Event, r: Reading)
    requires codec.Valid() && codec.Delimited() && start.Start? && r.loop == Goes && r.id >= 0
    ensures AfterResponse(codec, TwoRows(), r, Uncut(codec, start, r.id)) == Given(r.events, r.id, Stream(start, r.id))
  {
    StreamIs(start, r.id, Uncut(codec, start, r.id).conn.cut);
    ComesWhole(codec, TwoRows(), r, Uncut(codec, start, r.id));
  }

  lemma {:induction false} StreamStaysOpen(start: Event, since: nat)
    requires start.Start?
    ensures !EndsClosed(Stream(start, since))
  {
  }

  lemma {:induction false} ReadToTheEnd(codec: Codec, start: Event, r: Reading, rows: seq<Event>)
    requires codec.Valid() && codec.Delimited() && start.Start? && r.loop == Goes && r.id >= 0
    requires RowsOnly(EventsIn(Stream(start, r.id))) == rows
    ensures var items := Stream(start, r.id);
            var next := AfterResponse(codec, TwoRows(), r, Uncut(codec, start, r.id));
            && next.loop == Goes && next.id == CursorAfter(items, r.id)
            && RowsIn(next.events) == RowsIn(r.events) + AsJson(rows)
  {
    StreamComesWhole(codec, start, r);
    StreamStaysOpen(start, r.id);
    RowsAfter(r, Stream(start, r.id), rows);
  }

  /** Ended behind the last digit of row 12's id, resumed and read to the end: row 12 is never given to the client. */
  lemma {:induction false} EarlyIdSkipsARow(codec: Codec, start: Event)
    requires codec.Valid() && codec.Delimited() && start.Start?
    ensures var responses := [EndsInTwelve(codec, start, 6), Uncut(codec, start, 12)];
            var r := Follow(codec, TwoRows(), START, responses);
            r.loop == Goes && r.id == 12 && RowsIn(r.events) == [ToJson(Sent(2))]
  {
    var a, b := EndsInTwelve(codec, start, 6), Uncut(codec, start, 12);
    AfterTwelve(codec, start, 6);
    RowsAmong(start);
    CursorOfOne(Ev(start), 12);
    ReadToTheEnd(codec, start, AfterResponse(codec, TwoRows(), START, a), []);
    RowsAsTexts();
    TwoResponses(codec, TwoRows(), START, a, b);
  }

  /** Ended behind the first digit of row 12's id, resumed from 1 and read to the end: row 2 is given twice. */
  lemma {:induction false} PartOfAnIdDoublesARow(codec: Codec, start: Event)
    requires codec.Valid() && codec.Delimited() && start.Start?
    ensures var responses := [EndsInTwelve(codec, start, 5), Uncut(codec, start, 1)];
            var r := Follow(codec, TwoRows(), START, responses);
            RowsIn(r.events) == [ToJson(Sent(2)), ToJson(Sent(2)), ToJson(Sent(12))]
  {
    var a, b := EndsInTwelve(codec, start, 5), Uncut(codec, start, 1);
    AfterTwelve(codec, start, 5);
    RowsAmong(start);
    ReadToTheEnd(codec, start, AfterResponse(codec, TwoRows(), START, a), [Sent(2), Sent(12)]);
    RowsAsTexts();
    TwoResponses(codec, TwoRows(), START, a, b);
  }
}
