/**
 End to end: from the append-only log, over any number of connections cut at
 any character, to a client that follows WHATWG HTML section 9.2.6, or one
 that seeds its id buffer.
 */
module Delivery {
  import opened Prelude
  import opened Json
  import opened Decimal
  import opened StreamFormat
  import opened LogTail
  import opened TailProperties
  import opened Frames
  import opened Sse
  import opened FrameReading

  // ---- The client over many connections ----

  datatype Client = Client(lastEventId: string, received: seq<string>)

  /** One connection: its start event, what the server's polls see, and after how many characters it is cut. */
  datatype Connection = Connection(start: Event, clock: real, polls: seq<Poll>, cut: nat)

  function ConnectionItems(log: seq<LogRow>, since: nat, conn: Connection): seq<Item> {
    [Ev(conn.start)] + Tail(log, StartState(since, conn.clock), conn.polls).items
  }

  /** The cursor the server derives from the client's header, or from the URL it first opened. */
  function ServerCursor(since0: nat, lastEventId: string): Result<nat, string> {
    SinceOf(Some(lastEventId), Some(Dec(since0)))
  }

  /** What stays the same over all connections: the reader, the codec, the log and the `since` of the first URL. */
  datatype Setup = Setup(reader: Reader, codec: Codec, log: seq<LogRow>, since0: nat)
  {
    ghost predicate Valid() {
      codec.Valid() && Increasing(log)
    }
  }

  function Connect(u: Setup, c: Client, conn: Connection): Client {
    match ServerCursor(u.since0, c.lastEventId)
    case Err(_) => c
    case Ok(since) =>
      var text := StreamText(u.codec, ConnectionItems(u.log, since, conn));
      var p := ReadAll(Opened(u.reader, c.lastEventId), text[..Min(conn.cut, |text|)]);
      Client(p.lastEventId, c.received + p.dispatched)
  }

  function ConnectAll(u: Setup, c: Client, conns: seq<Connection>): Client
    decreases |conns|
  {
    if conns == [] then c else ConnectAll(u, Connect(u, c, conns[0]), conns[1..])
  }

  const NEW_CLIENT := Client("", [])

  ghost predicate AllStart(conns: seq<Connection>) {
    forall conn | conn in conns :: conn.start.Start?
  }

  predicate IsRowJson(j: Json) {
    j.JObj? && "type" in j.fields && j.fields["type"] in {JStr("stage"), JStr("output")}
  }

  /** The stage and output events among the received data, parsed. */
  function RowsReceived(codec: Codec, received: seq<string>): seq<Json> {
    if received == [] then []
    else
      var j := codec.loads(received[0]);
      (if j.Some? && IsRowJson(j.value) then [j.value] else []) + RowsReceived(codec, received[1..])
  }

  function RowsAsJson(rows: seq<LogRow>): seq<Json> {
    seq(|rows|, i requires 0 <= i < |rows| => ToJson(RowEvent(rows[i])))
  }

  lemma {:induction false} RowsReceivedAppend(codec: Codec, a: seq<string>, b: seq<string>)
    ensures RowsReceived(codec, a + b) == RowsReceived(codec, a) + RowsReceived(codec, b)
  {
    if a == [] {
      assert a + b == b;
    } else {
      assert (a + b)[0] == a[0] && (a + b)[1..] == a[1..] + b;
      RowsReceivedAppend(codec, a[1..], b);
    }
  }

  lemma {:induction false} RowsOfPrinted(codec: Codec, events: seq<Event>)
    requires codec.Valid()
    ensures RowsReceived(codec, AllPrinted(codec, events)) ==
            seq(|RowsOnly(events)|, i requires 0 <= i < |RowsOnly(events)| => ToJson(RowsOnly(events)[i]))
  {
    if events != [] {
      var e := events[0];
      assert AllPrinted(codec, events)[1..] == AllPrinted(codec, events[1..]);
      RowsOfPrinted(codec, events[1..]);
      RowTypeNames(e);
    }
  }

  /** The text is the cursor: the URL's when it is still empty. */
  ghost predicate Represents(id: string, since0: nat, cursor: nat) {
    id == Dec(cursor) || (id == "" && cursor == since0)
  }

  lemma {:induction false} CursorIsRead(id: string, since0: nat, cursor: nat)
    requires Represents(id, since0, cursor)
    ensures ServerCursor(since0, id) == Ok(cursor)
  {
    if id == "" {
      SinceOfQuery(since0);
    } else {
      SinceOfHeader(cursor, Some(Dec(since0)));
    }
  }

  lemma {:induction false} IdFollowsCursor(items: seq<Item>, id: string, since0: nat, cursor: nat)
    requires Represents(id, since0, cursor)
    ensures Represents(IdAfter(items, id), since0, CursorAfter(items, cursor))
  {
    if items != [] {
      var commits := CommitsId(items[0]);
      IdFollowsCursor(items[1..], if commits then Dec(items[0].event.id) else id, since0,
                      if commits then items[0].event.id else cursor);
    }
  }

  lemma {:induction false} StreamFaithful(log: seq<LogRow>, since: nat, conn: Connection, m: nat)
    requires Increasing(log) && conn.start.Start? && m <= |ConnectionItems(log, since, conn)|
    ensures Faithful(log, since, ConnectionItems(log, since, conn)[..m])
  {
    var start, tail := [Ev(conn.start)], Tail(log, StartState(since, conn.clock), conn.polls).items;
    BetweenNothing(log, since, since);
    CursorOfOne(start[0], since);
    if m == 0 {
      assert ConnectionItems(log, since, conn)[..m] == [];
    } else {
      TailFaithful(log, StartState(since, conn.clock), conn.polls);
      assert ConnectionItems(log, since, conn)[..m] == start + tail[..m - 1];
      FaithfulJoin(log, since, start, tail[..m - 1]);
    }
  }

  /** The items of a connection that reached the client whole. */
  function Reached(codec: Codec, log: seq<LogRow>, since: nat, conn: Connection): seq<Item> {
    var items := ConnectionItems(log, since, conn);
    items[..WholeFrames(codec, items, Min(conn.cut, |StreamText(codec, items)|))]
  }

  // ---- The cursor over one connection ----

  predicate NoIdIn(items: seq<Item>) {
    forall item | item in items :: !CommitsId(item)
  }

  /** A reader that starts with an empty id buffer has dispatched something, but nothing with an id. */
  predicate Forgets(reader: Reader, items: seq<Item>) {
    reader == Standard && items != [] && NoIdIn(items)
  }

  function NextId(reader: Reader, items: seq<Item>, id: string): string {
    if items == [] then id else IdAfter(items, if reader == Seeded then id else "")
  }

  /** What the server takes the next request's id for. */
  function NextCursor(u: Setup, items: seq<Item>, cursor: nat): nat {
    if Forgets(u.reader, items) then u.since0 else CursorAfter(items, cursor)
  }

  lemma {:induction false} CursorWithoutIds(items: seq<Item>, a: nat, b: nat)
    ensures NoIdIn(items) ==> CursorAfter(items, a) == a && IdAfter(items, "") == ""
    ensures !NoIdIn(items) ==> CursorAfter(items, a) == CursorAfter(items, b)
  {
    if items != [] {
      var first := items[0];
      assert items == [first] + items[1..] && first in items;
      var id := if CommitsId(first) then Some(first.event.id) else None;
      CursorWithoutIds(items[1..], Or(id, a), Or(id, b));
    }
  }

  lemma {:induction false} NextIdRepresents(u: Setup, items: seq<Item>, id: string, cursor: nat)
    requires Represents(id, u.since0, cursor)
    ensures Represents(NextId(u.reader, items, id), u.since0, NextCursor(u, items, cursor))
  {
    CursorWithoutIds(items, cursor, u.since0);
    if u.reader == Seeded {
      IdFollowsCursor(items, id, u.since0, cursor);
    } else if items != [] {
      IdFollowsCursor(items, "", u.since0, u.since0);
    }
  }

  lemma {:induction false} ConnectReaches(u: Setup, c: Client, conn: Connection, cursor: nat)
    requires u.codec.Valid() && ServerCursor(u.since0, c.lastEventId) == Ok(cursor)
    ensures var items := Reached(u.codec, u.log, cursor, conn);
            Connect(u, c, conn) ==
            Client(NextId(u.reader, items, c.lastEventId), c.received + AllPrinted(u.codec, EventsIn(items)))
  {
    var items, reached := ConnectionItems(u.log, cursor, conn), Reached(u.codec, u.log, cursor, conn);
    CutStreamRead(u.codec, Opened(u.reader, c.lastEventId), items, Min(conn.cut, |StreamText(u.codec, items)|));
    assert [] + AllPrinted(u.codec, EventsIn(reached)) == AllPrinted(u.codec, EventsIn(reached));
    assert c.received + [] == c.received;
  }

  lemma {:induction false} RowsGrow(codec: Codec, log: seq<LogRow>, received: seq<string>, cursor: nat,
      items: seq<Item>)
    requires codec.Valid() && Faithful(log, cursor, items)
    ensures RowsReceived(codec, received + AllPrinted(codec, EventsIn(items)))
         == RowsReceived(codec, received) + RowsAsJson(Between(log, cursor, CursorAfter(items, cursor)))
  {
    RowsReceivedAppend(codec, received, AllPrinted(codec, EventsIn(items)));
    RowsOfPrinted(codec, EventsIn(items));
  }

  lemma RowsAsJsonAppend(a: seq<LogRow>, b: seq<LogRow>)
    ensures RowsAsJson(a + b) == RowsAsJson(a) + RowsAsJson(b)
  {
  }

  /** The client's id stands for this cursor, and the cursor has only been moved by rows. */
  ghost predicate Tracks(u: Setup, c: Client, cursor: nat) {
    && u.since0 <= cursor && Represents(c.lastEventId, u.since0, cursor)
    && (cursor > u.since0 ==> Between(u.log, u.since0, cursor) != [])
  }

  /** One connection: its rows are added to what was received, and the cursor moves on, or back to the first URL's. */
  lemma {:induction false} ConnectAddsRows(u: Setup, c: Client, conn: Connection, cursor: nat)
    requires u.Valid() && conn.start.Start? && Tracks(u, c, cursor)
    ensures var items, next := Reached(u.codec, u.log, cursor, conn), Connect(u, c, conn);
            var reached := CursorAfter(items, cursor);
            && cursor <= reached && Tracks(u, next, NextCursor(u, items, cursor))
            && RowsReceived(u.codec, next.received)
               == RowsReceived(u.codec, c.received) + RowsAsJson(Between(u.log, cursor, reached))
            && Between(u.log, u.since0, reached) == Between(u.log, u.since0, cursor) + Between(u.log, cursor, reached)
            && (NoIdIn(items) ==> reached == cursor && Between(u.log, cursor, reached) == [])
  {
    var items := Reached(u.codec, u.log, cursor, conn);
    CursorIsRead(c.lastEventId, u.since0, cursor);
    ConnectReaches(u, c, conn, cursor);
    NextIdRepresents(u, items, c.lastEventId, cursor);
    StreamFaithful(u.log, cursor, conn, |items|);
    RowsGrow(u.codec, u.log, c.received, cursor, items);
    BetweenSplits(u.log, u.since0, cursor, CursorAfter(items, cursor));
    CursorWithoutIds(items, cursor, cursor);
    BetweenNothing(u.log, cursor, cursor);
  }

  // ---- Exactly once ----

  /** The client holds exactly the log's rows from the first cursor up to its own. */
  ghost predicate UpToDate(u: Setup, c: Client, cursor: nat) {
    Tracks(u, c, cursor) && RowsReceived(u.codec, c.received) == RowsAsJson(Between(u.log, u.since0, cursor))
  }

  /** It holds more rows than there are up to its cursor: the next connection sends some of them again. */
  ghost predicate HasTooMany(u: Setup, c: Client, cursor: nat) {
    Tracks(u, c, cursor) && |RowsReceived(u.codec, c.received)| > |Between(u.log, u.since0, cursor)|
  }

  /** This connection asked for rows past the first URL's, and sent the client something but nothing with an id. */
  ghost predicate LosesCursor(u: Setup, c: Client, conn: Connection) {
    var cursor := ServerCursor(u.since0, c.lastEventId);
    cursor.Ok? && cursor.value > u.since0 && Forgets(u.reader, Reached(u.codec, u.log, cursor.value, conn))
  }

  ghost predicate EverLosesCursor(u: Setup, c: Client, conns: seq<Connection>)
    decreases |conns|
  {
    conns != [] && (LosesCursor(u, c, conns[0]) || EverLosesCursor(u, Connect(u, c, conns[0]), conns[1..]))
  }

  lemma {:induction false} ConnectKeepsUpToDate(u: Setup, c: Client, conn: Connection, cursor: nat)
    requires u.Valid() && conn.start.Start? && UpToDate(u, c, cursor)
    ensures var next := NextCursor(u, Reached(u.codec, u.log, cursor, conn), cursor);
            if LosesCursor(u, c, conn) then HasTooMany(u, Connect(u, c, conn), next)
            else UpToDate(u, Connect(u, c, conn), next)
  {
    var reached := CursorAfter(Reached(u.codec, u.log, cursor, conn), cursor);
    CursorIsRead(c.lastEventId, u.since0, cursor);
    ConnectAddsRows(u, c, conn, cursor);
    BetweenNothing(u.log, u.since0, u.since0);
    RowsAsJsonAppend(Between(u.log, u.since0, cursor), Between(u.log, cursor, reached));
  }

  lemma {:induction false} ConnectKeepsTooMany(u: Setup, c: Client, conn: Connection, cursor: nat)
    requires u.Valid() && conn.start.Start? && HasTooMany(u, c, cursor)
    ensures HasTooMany(u, Connect(u, c, conn), NextCursor(u, Reached(u.codec, u.log, cursor, conn), cursor))
  {
    ConnectAddsRows(u, c, conn, cursor);
    BetweenNothing(u.log, u.since0, u.since0);
  }

  lemma {:induction false} TooManyStays(u: Setup, c: Client, conns: seq<Connection>, cursor: nat) returns (last: nat)
    requires u.Valid() && AllStart(conns) && HasTooMany(u, c, cursor)
    ensures HasTooMany(u, ConnectAll(u, c, conns), last)
    decreases |conns|
  {
    last := cursor;
    if conns != [] {
      assert conns[0] in conns;
      ConnectKeepsTooMany(u, c, conns[0], cursor);
      last := TooManyStays(u, Connect(u, c, conns[0]), conns[1..],
                           NextCursor(u, Reached(u.codec, u.log, cursor, conns[0]), cursor));
    }
  }

  lemma {:induction false} ConnectAllIff(u: Setup, c: Client, conns: seq<Connection>, cursor: nat) returns (last: nat)
    requires u.Valid() && AllStart(conns) && UpToDate(u, c, cursor)
    ensures if EverLosesCursor(u, c, conns) then HasTooMany(u, ConnectAll(u, c, conns), last)
            else UpToDate(u, ConnectAll(u, c, conns), last)
    decreases |conns|
  {
    last := cursor;
    if conns != [] {
      assert conns[0] in conns;
      var next := NextCursor(u, Reached(u.codec, u.log, cursor, conns[0]), cursor);
      ConnectKeepsUpToDate(u, c, conns[0], cursor);
      if LosesCursor(u, c, conns[0]) {
        last := TooManyStays(u, Connect(u, c, conns[0]), conns[1..], next);
      } else {
        last := ConnectAllIff(u, Connect(u, c, conns[0]), conns[1..], next);
      }
    }
  }

  /**
   Any number of connections, each cut at any character, over any schedule of
   commits, for either reader: the client has received every stage and output
   row from the first cursor up to its own exactly once, in id order, if and
   only if no connection that resumed past the first cursor got a frame through
   but none with an id. Otherwise it has received more rows than there are.
   */
  lemma {:induction false} ExactlyOnceIff(u: Setup, conns: seq<Connection>)
    requires u.Valid() && AllStart(conns)
    ensures var c := ConnectAll(u, NEW_CLIENT, conns);
            var cursor := ServerCursor(u.since0, c.lastEventId);
            && cursor.Ok? && u.since0 <= cursor.value
            && (RowsReceived(u.codec, c.received) == RowsAsJson(Between(u.log, u.since0, cursor.value)) <==>
                  !EverLosesCursor(u, NEW_CLIENT, conns))
            && (EverLosesCursor(u, NEW_CLIENT, conns) ==>
                  |RowsReceived(u.codec, c.received)| > |Between(u.log, u.since0, cursor.value)|)
  {
    BetweenNothing(u.log, u.since0, u.since0);
    var last := ConnectAllIff(u, NEW_CLIENT, conns, u.since0);
    CursorIsRead(ConnectAll(u, NEW_CLIENT, conns).lastEventId, u.since0, last);
  }

  lemma {:induction false} SeededNeverLoses(u: Setup, c: Client, conns: seq<Connection>)
    requires u.reader == Seeded
    ensures !EverLosesCursor(u, c, conns)
    decreases |conns|
  {
    if conns != [] {
      SeededNeverLoses(u, Connect(u, c, conns[0]), conns[1..]);
    }
  }

  /** For a reader that seeds its id buffer: every row exactly once, in id order, under any cuts. */
  lemma {:induction false} ExactlyOnceDelivery(codec: Codec, log: seq<LogRow>, since0: nat, conns: seq<Connection>)
    requires codec.Valid() && Increasing(log) && AllStart(conns)
    ensures var c := ConnectAll(Setup(Seeded, codec, log, since0), NEW_CLIENT, conns);
            var cursor := ServerCursor(since0, c.lastEventId);
            && cursor.Ok? && since0 <= cursor.value
            && RowsReceived(codec, c.received) == RowsAsJson(Between(log, since0, cursor.value))
  {
    var u := Setup(Seeded, codec, log, since0);
    ExactlyOnceIff(u, conns);
    SeededNeverLoses(u, NEW_CLIENT, conns);
  }

  lemma {:induction false} AllFramesWhole(codec: Codec, items: seq<Item>)
    ensures WholeFrames(codec, items, |StreamText(codec, items)|) == |items|
  {
    if items != [] {
      AllFramesWhole(codec, items[1..]);
    }
  }

  lemma {:induction false} UncutReachesAll(codec: Codec, log: seq<LogRow>, since: nat, conn: Connection)
    requires conn.cut >= |StreamText(codec, ConnectionItems(log, since, conn))|
    ensures Reached(codec, log, since, conn) == ConnectionItems(log, since, conn)
  {
    var items := ConnectionItems(log, since, conn);
    AllFramesWhole(codec, items);
    assert Min(conn.cut, |StreamText(codec, items)|) == |StreamText(codec, items)|;
    assert items[..|items|] == items;
  }

  lemma {:induction false} EndedKeepsCursor(u: Setup, c: Client, conn: Connection, cursor: nat)
    requires u.Valid() && conn.start.Start? && UpToDate(u, c, cursor)
    requires Tail(u.log, StartState(cursor, conn.clock), conn.polls).end == Ended
    requires conn.cut >= |StreamText(u.codec, ConnectionItems(u.log, cursor, conn))|
    ensures !LosesCursor(u, c, conn)
    ensures NextCursor(u, Reached(u.codec, u.log, cursor, conn), cursor)
         == CursorAfter(Tail(u.log, StartState(cursor, conn.clock), conn.polls).items, cursor)
  {
    var start, tail := [Ev(conn.start)], Tail(u.log, StartState(cursor, conn.clock), conn.polls).items;
    CursorIsRead(c.lastEventId, u.since0, cursor);
    UncutReachesAll(u.codec, u.log, cursor, conn);
    CursorOfOne(start[0], cursor);
    ItemsAppendParts(start, tail, cursor);
    TerminalComesAfterEveryRow(u.log, StartState(cursor, conn.clock), conn.polls);
    TailFaithful(u.log, StartState(cursor, conn.clock), conn.polls);
    assert tail[..|tail|] == tail;
    var last := (start + tail)[|tail|];
    assert last == tail[|tail| - 1] && last in start + tail;
    assert last.event.id != 0 ==> CommitsId(last);
  }

  /** After one uncut connection that ends the stream either reader has every row the last query could see, once. */
  lemma {:induction false} NothingMissingAtTheEnd(u: Setup, c: Client, conn: Connection, cursor: nat)
    requires u.Valid() && conn.start.Start? && UpToDate(u, c, cursor)
    requires Tail(u.log, StartState(cursor, conn.clock), conn.polls).end == Ended
    requires conn.cut >= |StreamText(u.codec, ConnectionItems(u.log, cursor, conn))|
    ensures var run := Tail(u.log, StartState(cursor, conn.clock), conn.polls);
            var last := CursorAfter(run.items, cursor);
            && UpToDate(u, Connect(u, c, conn), last)
            && 0 < run.polls <= |conn.polls|
            && forall row | row in Visible(u.log, conn.polls[run.polls - 1]) :: row.id <= last
  {
    ConnectKeepsUpToDate(u, c, conn, cursor);
    EndedKeepsCursor(u, c, conn, cursor);
    TerminalComesAfterEveryRow(u.log, StartState(cursor, conn.clock), conn.polls);
  }
}
