/** A run in which a reader that starts every connection with an empty id buffer is sent a row twice. */
module Redelivery {
  import opened Prelude
  import opened Json
  import opened Protocol
  import opened Decimal
  import opened StreamFormat
  import opened LogTail
  import opened TailProperties
  import opened Frames
  import opened Sse
  import opened FrameReading
  import opened Delivery

  const ONE_ROW := LogRow(1, StageKind, "", "", "env_file", "started", None, None, None)

  /** A poll of a running session that sees the row. */
  const ONE_POLL := Poll(1, 0.0, Some(SessionView(Running, None)), 0.0)

  const ROW_SENT := RowEvent(ONE_ROW)

  lemma {:induction false} OnePollSends(since: nat)
    ensures Tail([ONE_ROW], StartState(since, 0.0), [ONE_POLL]).items == if since == 0 then [Ev(ROW_SENT)] else []
  {
    var log, st := [ONE_ROW], StartState(since, 0.0);
    assert log[1..] == [] && log[..1] == log && [ONE_POLL][1..] == [];
    assert Above(log, since) == if since == 0 then [ONE_ROW] else [];
    assert FormatRows(ChunkOf(log, st, ONE_POLL), None) == if since == 0 then [ROW_SENT] else [];
    assert PollItems(log, st, ONE_POLL) == if since == 0 then [Ev(ROW_SENT)] else [];
  }

  /** A connection that nothing cuts, and one cut right behind its start frame. */
  function Whole(codec: Codec, start: Event): Connection {
    Connection(start, 0.0, [ONE_POLL], |StreamText(codec, [Ev(start), Ev(ROW_SENT)])|)
  }

  function CutBehindStart(codec: Codec, start: Event): Connection {
    Connection(start, 0.0, [ONE_POLL], |FrameText(codec, Ev(start))|)
  }

  lemma {:induction false} WholeReaches(codec: Codec, start: Event)
    ensures Reached(codec, [ONE_ROW], 0, Whole(codec, start)) == [Ev(start), Ev(ROW_SENT)]
  {
    OnePollSends(0);
    assert ConnectionItems([ONE_ROW], 0, Whole(codec, start)) == [Ev(start), Ev(ROW_SENT)];
    UncutReachesAll(codec, [ONE_ROW], 0, Whole(codec, start));
  }

  lemma {:induction false} CutReaches(codec: Codec, start: Event)
    ensures Reached(codec, [ONE_ROW], 1, CutBehindStart(codec, start)) == [Ev(start)]
  {
    OnePollSends(1);
    var conn := CutBehindStart(codec, start);
    assert ConnectionItems([ONE_ROW], 1, conn) == [Ev(start)] && [Ev(start)][1..] == [];
    assert StreamText(codec, [Ev(start)]) == FrameText(codec, Ev(start)) + "";
    UncutReachesAll(codec, [ONE_ROW], 1, conn);
  }

  lemma {:induction false} StartLeaves(codec: Codec, start: Event)
    requires start.Start?
    ensures AllPrinted(codec, EventsIn([Ev(start)])) == [Printed(codec, start)] && IdAfter([Ev(start)], "") == ""
  {
    assert [Ev(start)][1..] == [];
    assert EventsIn([Ev(start)]) == [start] + EventsIn([]);
    assert IdAfter([Ev(start)], "") == IdAfter([], "");
  }

  lemma {:induction false} StartAndRowLeave(codec: Codec, start: Event)
    requires start.Start?
    ensures var items := [Ev(start), Ev(ROW_SENT)];
            && AllPrinted(codec, EventsIn(items)) == [Printed(codec, start), Printed(codec, ROW_SENT)]
            && IdAfter(items, "") == Dec(1)
  {
    var items := [Ev(start), Ev(ROW_SENT)];
    assert items[1..] == [Ev(ROW_SENT)] && items[1..][1..] == [];
    assert EventsIn(items[1..]) == [ROW_SENT] + EventsIn([]);
    assert EventsIn(items) == [start, ROW_SENT];
    assert IdAfter(items[1..], "") == IdAfter([], Dec(1));
  }

  lemma {:induction false} WholeConnects(codec: Codec, start: Event, c: Client)
    requires codec.Valid() && start.Start? && c.lastEventId == ""
    ensures Connect(Setup(Standard, codec, [ONE_ROW], 0), c, Whole(codec, start))
         == Client(Dec(1), c.received + [Printed(codec, start), Printed(codec, ROW_SENT)])
  {
    CursorIsRead("", 0, 0);
    WholeReaches(codec, start);
    ConnectReaches(Setup(Standard, codec, [ONE_ROW], 0), c, Whole(codec, start), 0);
    StartAndRowLeave(codec, start);
  }

  lemma {:induction false} CutConnects(codec: Codec, start: Event, c: Client)
    requires codec.Valid() && start.Start? && c.lastEventId == Dec(1)
    ensures Connect(Setup(Standard, codec, [ONE_ROW], 0), c, CutBehindStart(codec, start))
         == Client("", c.received + [Printed(codec, start)])
  {
    CursorIsRead(Dec(1), 0, 1);
    CutReaches(codec, start);
    ConnectReaches(Setup(Standard, codec, [ONE_ROW], 0), c, CutBehindStart(codec, start), 1);
    StartLeaves(codec, start);
  }

  lemma {:induction false} RowsOfConnection(codec: Codec, start: Event)
    requires codec.Valid() && start.Start?
    ensures RowsReceived(codec, [Printed(codec, start)]) == []
    ensures RowsReceived(codec, [Printed(codec, start), Printed(codec, ROW_SENT)]) == [ToJson(ROW_SENT)]
  {
    assert [start][1..] == [] && [start, ROW_SENT][1..] == [ROW_SENT] && [ROW_SENT][1..] == [];
    assert AllPrinted(codec, [start]) == [Printed(codec, start)];
    assert AllPrinted(codec, [start, ROW_SENT]) == [Printed(codec, start), Printed(codec, ROW_SENT)];
    RowsOfPrinted(codec, [start]);
    RowsOfPrinted(codec, [start, ROW_SENT]);
    assert RowsOnly([start]) == [] && RowsOnly([ROW_SENT]) == [ROW_SENT] && RowsOnly([start, ROW_SENT]) == [ROW_SENT];
  }

  /** Read the one row, resume, be cut right behind the start frame, resume again: the row has come twice. */
  lemma {:induction false} EmptyBufferDoublesARow(codec: Codec, start: Event)
    requires codec.Valid() && start.Start?
    ensures var conns := [Whole(codec, start), CutBehindStart(codec, start), Whole(codec, start)];
            var c := ConnectAll(Setup(Standard, codec, [ONE_ROW], 0), NEW_CLIENT, conns);
            RowsReceived(codec, c.received) == [ToJson(ROW_SENT), ToJson(ROW_SENT)]
  {
    var u := Setup(Standard, codec, [ONE_ROW], 0);
    var whole, cut := Whole(codec, start), CutBehindStart(codec, start);
    var one, two := [Printed(codec, start), Printed(codec, ROW_SENT)], [Printed(codec, start)];
    assert [] + one == one;
    WholeConnects(codec, start, NEW_CLIENT);
    CutConnects(codec, start, Client(Dec(1), one));
    WholeConnects(codec, start, Client("", one + two));
    ThreeConnections(u, NEW_CLIENT, whole, cut, whole);
    RowsOfConnection(codec, start);
    RowsReceivedAppend(codec, one, two);
    RowsReceivedAppend(codec, one + two, one);
  }

  lemma {:induction false} ThreeConnections(u: Setup, c: Client, a: Connection, b: Connection, d: Connection)
    ensures ConnectAll(u, c, [a, b, d]) == Connect(u, Connect(u, Connect(u, c, a), b), d)
  {
    assert [a, b, d][1..] == [b, d] && [b, d][1..] == [d] && [d][1..] == [];
    assert ConnectAll(u, Connect(u, c, a), [b, d]) == ConnectAll(u, Connect(u, Connect(u, c, a), b), [d]);
  }
}
