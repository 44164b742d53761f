/**
 The hand-written client of the streaming page (site/docs/api/streaming.md): it
 reads lines, takes an id as soon as its line is there, and stops at the first
 error. Here: what it makes of a response that stops anywhere.
 */
module LineClient {
  import opened Prelude
  import opened Json
  import opened Decimal
  import opened Lines
  import opened StreamFormat
  import opened LogTail
  import opened TailProperties
  import opened Frames
  import opened Delivery

  // ---- The client ----

  /** The client goes on, has returned at an event that closes the stream, or has raised. */
  datatype Loop = Goes | Returns | Raises

  datatype Reading = Reading(events: seq<Json>, id: int, loop: Loop)

  const START := Reading([], 0, Goes)

  const CLOSING_TYPES := {JStr("exit"), JStr("error"), JStr("terminated"), JStr("stale")}

  function TakeEvent(r: Reading, event: Json): Reading {
    Reading(r.events + [event], r.id,
            if !event.JObj? || "type" !in event.fields then Raises
            else if event.fields["type"] in CLOSING_TYPES then Returns
            else Goes)
  }

  /** One line: neither a number that is none nor text that is no JSON is caught. */
  function TakeLine(codec: Codec, r: Reading, line: string): Reading {
    if r.loop != Goes || line == "" || line[0] == ':' then r
    else if "id: " <= line then
      match ParseInt(line[4..])
      case None => r.(loop := Raises)
      case Some(n) => r.(id := n)
    else if "data: " <= line then
      match codec.loads(line[6..])
      case None => r.(loop := Raises)
      case Some(event) => TakeEvent(r, event)
    else r
  }

  function Taker(codec: Codec): (Reading, string) -> Reading {
    (r: Reading, line: string) => TakeLine(codec, r, line)
  }

  /** `iter_lines`: a body that ends also gives what follows its last newline; one that breaks off does not. */
  function LinesGiven(text: string, clean: bool): seq<string> {
    Complete(text, '\n') + if clean && Rest(text, '\n') != "" then [Rest(text, '\n')] else []
  }

  /** What a response gives before it ends cleanly or breaks off, which raises. */
  datatype Response = Response(conn: Connection, clean: bool)

  function Arrived(codec: Codec, log: seq<LogRow>, since: nat, a: Response): string {
    var text := StreamText(codec, ConnectionItems(log, since, a.conn));
    text[..Min(a.conn.cut, |text|)]
  }

  /** The header the client sends, and what the server makes of it. */
  function Header(id: int): Option<string> {
    if id == 0 then None else Some(Str(id))
  }

  function Asked(id: int): nat {
    Max(0, id)
  }

  /** The header makes the server resume behind exactly the id the client holds. */
  lemma {:induction false} RequestResumesAt(id: int)
    ensures SinceOf(Header(id), None) == Ok(Asked(id))
  {
    ParseIntOfStr(id);
    SinceOfNothing();
    assert id != 0 ==> Str(id) != "";
  }

  function AfterResponse(codec: Codec, log: seq<LogRow>, r: Reading, a: Response): Reading {
    if r.loop != Goes then r
    else
      var read := Fold(Taker(codec), r, LinesGiven(Arrived(codec, log, Asked(r.id), a), a.clean));
      if read.loop == Goes && !a.clean then read.(loop := Raises) else read
  }

  function Follow(codec: Codec, log: seq<LogRow>, r: Reading, responses: seq<Response>): Reading
    decreases |responses|
  {
    if responses == [] then r
    else Follow(codec, log, AfterResponse(codec, log, r, responses[0]), responses[1..])
  }

  /** The loop over the lines of one response. */
  method ReadResponse(codec: Codec, start: Reading, lines: seq<string>) returns (r: Reading)
    requires start.loop == Goes
    ensures r == Fold(Taker(codec), start, lines)
  {
    var events, id := start.events, start.id;
    for i := 0 to |lines|
      invariant Fold(Taker(codec), start, lines) == Fold(Taker(codec), Reading(events, id, Goes), lines[i..])
    {
      var line := lines[i];
      ghost var before := Reading(events, id, Goes);
      assert lines[i..][0] == line && lines[i..][1..] == lines[i + 1..];
      StoppedStays(codec, TakeLine(codec, before, line), lines[i + 1..]);
      if line == "" || line[0] == ':' {
        continue;
      }
      if "id: " <= line {
        var n := ParseInt(line[4..]);
        if n.None? {
          return Reading(events, id, Raises);
        }
        id := n.value;
      } else if "data: " <= line {
        var event := codec.loads(line[6..]);
        if event.None? {
          return Reading(events, id, Raises);
        }
        events := events + [event.value];
        if !event.value.JObj? || "type" !in event.value.fields {
          return Reading(events, id, Raises);
        }
        var kind := event.value.fields["type"];
        if kind in CLOSING_TYPES {
          return Reading(events, id, Returns);
        }
      }
    }
    assert lines[|lines|..] == [];
    return Reading(events, id, Goes);
  }

  /** The whole client: it asks again, with the id it holds, for as long as responses end cleanly. */
  method FollowSession(codec: Codec, log: seq<LogRow>, responses: seq<Response>) returns (r: Reading)
    ensures r == Follow(codec, log, START, responses)
  {
    r := START;
    var i := 0;
    while i < |responses| && r.loop == Goes
      invariant i <= |responses|
      invariant Follow(codec, log, START, responses) == Follow(codec, log, r, responses[i..])
    {
      var a := responses[i];
      assert responses[i..][0] == a && responses[i..][1..] == responses[i + 1..];
      var read := ReadResponse(codec, r, LinesGiven(Arrived(codec, log, Asked(r.id), a), a.clean));
      r := if read.loop == Goes && !a.clean then read.(loop := Raises) else read;
      i := i + 1;
    }
    StoppedFollows(codec, log, r, responses[i..]);
  }

  lemma {:induction false} StoppedStays(codec: Codec, r: Reading, lines: seq<string>)
    ensures r.loop != Goes ==> Fold(Taker(codec), r, lines) == r
    decreases |lines|
  {
    if lines != [] {
      StoppedStays(codec, r, lines[1..]);
    }
  }

  lemma {:induction false} StoppedFollows(codec: Codec, log: seq<LogRow>, r: Reading, responses: seq<Response>)
    ensures r.loop != Goes || responses == [] ==> Follow(codec, log, r, responses) == r
    decreases |responses|
  {
    if responses != [] {
      StoppedFollows(codec, log, r, responses[1..]);
    }
  }

  // ---- A whole frame ----

  /** The events at which the client returns. */
  predicate Closes(e: Event) {
    IsTerminal(e) || e.StaleEvent?
  }

  lemma {:induction false} ClosingTypes(e: Event)
    ensures JStr(TypeName(e)) in CLOSING_TYPES <==> Closes(e)
  {
    assert "exit"[0] == 'e' && "error"[0] == 'e' && "error"[1] == 'r' && "terminated"[1] == 'e';
    assert "stale"[3] == 'l' && "stage"[3] == 'g' && "start"[3] == 'r' && "turn_start"[1] == 'u' && "output"[0] == 'o';
  }

  function WholeRead(r: Reading, item: Item): Reading {
    if r.loop != Goes || item.Heartbeat? then r
    else
      Reading(r.events + [ToJson(item.event)], if CommitsId(item) then item.event.id else r.id,
              if Closes(item.event) then Returns else Goes)
  }

  lemma {:induction false} BodyTaken(codec: Codec, r: Reading, item: Item)
    requires codec.Valid() && r.loop == Goes
    ensures TakeLine(codec, r, BodyLine(codec, item)) == WholeRead(r, item).(id := r.id)
  {
    var line := BodyLine(codec, item);
    if item.Ev? {
      assert line[0] == 'd' && "id: "[0] == 'i';
      assert line[..6] == "data: " && line[6..] == Printed(codec, item.event);
      JsonFields(item.event);
      ClosingTypes(item.event);
    } else {
      assert line[0] == ':';
    }
  }

  lemma {:induction false} IdTaken(codec: Codec, r: Reading, n: nat, k: nat)
    requires r.loop == Goes && 0 < k <= |Dec(n)|
    ensures TakeLine(codec, r, "id: " + Dec(n)[..k]) == r.(id := Leading(n, k))
  {
    var line := "id: " + Dec(n)[..k];
    assert line[0] == 'i' && line[..4] == "id: " && line[4..] == Dec(n)[..k];
    ParseLeadingDigits(n, k);
  }

  lemma {:induction false} IdLineTaken(codec: Codec, r: Reading, item: Item)
    requires r.loop == Goes && CommitsId(item)
    ensures TakeLine(codec, r, IdLine(item)) == r.(id := item.event.id)
  {
    var n := item.event.id;
    assert Dec(n)[..|Dec(n)|] == Dec(n);
    IdTaken(codec, r, n, |Dec(n)|);
  }

  lemma {:induction false} LineGiven(line: string, rest: string, clean: bool)
    requires '\n' !in line
    ensures LinesGiven(line + "\n" + rest, clean) == [line] + LinesGiven(rest, clean)
  {
    CompleteAfterLine(line, '\n', rest);
    var tail := if clean && Rest(rest, '\n') != "" then [Rest(rest, '\n')] else [];
    Associative([line], Complete(rest, '\n'), tail);
  }

  lemma {:induction false} LineFolded(codec: Codec, r: Reading, line: string, rest: string, clean: bool)
    requires '\n' !in line
    ensures Fold(Taker(codec), r, LinesGiven(line + "\n" + rest, clean))
         == Fold(Taker(codec), TakeLine(codec, r, line), LinesGiven(rest, clean))
  {
    LineGiven(line, rest, clean);
    FirstAndRest(line, LinesGiven(rest, clean));
  }

  /** A body line and the empty line behind it. */
  lemma {:induction false} BodyFolded(codec: Codec, r: Reading, item: Item, rest: string, clean: bool)
    requires codec.Valid() && r.loop == Goes
    ensures Fold(Taker(codec), r, LinesGiven(BodyLine(codec, item) + "\n" + ("\n" + rest), clean))
         == Fold(Taker(codec), WholeRead(r, item).(id := r.id), LinesGiven(rest, clean))
  {
    BodyIsOneLine(codec, item);
    LineFolded(codec, r, BodyLine(codec, item), "\n" + rest, clean);
    BodyTaken(codec, r, item);
    assert "" + "\n" + rest == "\n" + rest;
    LineFolded(codec, TakeLine(codec, r, BodyLine(codec, item)), "", rest, clean);
  }

  lemma {:induction false} BodyIsOneLine(codec: Codec, item: Item)
    requires codec.Valid()
    ensures '\n' !in BodyLine(codec, item) && '\n' !in IdLine(item)
  {
    if item.Ev? {
      assert Printable(Printed(codec, item.event));
    }
    assert CommitsId(item) ==> forall c | c in Dec(item.event.id) :: IsDigit(c);
  }

  lemma {:induction false} FrameFolded(codec: Codec, r: Reading, item: Item, rest: string, clean: bool)
    requires codec.Valid() && r.loop == Goes
    ensures Fold(Taker(codec), r, LinesGiven(FrameText(codec, item) + rest, clean))
         == Fold(Taker(codec), WholeRead(r, item), LinesGiven(rest, clean))
  {
    var body := BodyLine(codec, item);
    assert body + "\n" + "\n" + rest == body + "\n" + ("\n" + rest);
    if CommitsId(item) {
      var r' := r.(id := item.event.id);
      assert FrameText(codec, item) + rest == IdLine(item) + "\n" + (body + "\n" + ("\n" + rest));
      BodyIsOneLine(codec, item);
      LineFolded(codec, r, IdLine(item), body + "\n" + ("\n" + rest), clean);
      IdLineTaken(codec, r, item);
      BodyFolded(codec, r', item, rest, clean);
    } else {
      BodyFolded(codec, r, item, rest, clean);
    }
  }

  // ---- A frame cut anywhere ----

  function BodyAt(item: Item): nat {
    if CommitsId(item) then |IdLine(item)| + 1 else 0
  }

  /** The first j characters of the frame give its body line: a clean end makes up for the newline. */
  predicate BodyGiven(codec: Codec, item: Item, j: nat, clean: bool) {
    j >= BodyAt(item) + |BodyLine(codec, item)| + if clean then 0 else 1
  }

  /** A clean end leaves an id line without digits, or the beginning of an event's JSON. */
  predicate Chokes(codec: Codec, item: Item, j: nat, clean: bool) {
    && clean && !BodyGiven(codec, item, j, clean)
    && ((CommitsId(item) && j == 4) || (item.Ev? && j >= BodyAt(item) + 6))
  }

  /** The id held after the first j characters: the whole number, the digits that came, or the one before. */
  function IdAt(item: Item, j: nat, clean: bool, id: int): int {
    if !CommitsId(item) then id
    else if j > |IdLine(item)| then item.event.id
    else if clean && j > 4 then Leading(item.event.id, j - 4)
    else id
  }

  function PartRead(codec: Codec, r: Reading, item: Item, j: nat, clean: bool): Reading {
    if BodyGiven(codec, item, j, clean) then WholeRead(r, item)
    else
      var held := r.(id := IdAt(item, j, clean, r.id));
      if Chokes(codec, item, j, clean) then held.(loop := Raises) else held
  }

  lemma {:induction false} TailFolded(codec: Codec, r: Reading, tail: string, clean: bool)
    requires '\n' !in tail
    ensures Fold(Taker(codec), r, LinesGiven(tail, clean))
         == if clean && tail != "" then TakeLine(codec, r, tail) else r
  {
    SplitNone(tail, '\n');
    FoldOne(Taker(codec), r, tail);
    assert [] + [tail] == [tail];
  }

  /** What the first b characters of an event's data line come to as a line. */
  lemma {:induction false} CutBodyTaken(codec: Codec, r: Reading, e: Event, b: nat)
    requires codec.Valid() && codec.Delimited() && r.loop == Goes && 0 < b < |BodyLine(codec, Ev(e))|
    ensures TakeLine(codec, r, BodyLine(codec, Ev(e))[..b]) == if b < 6 then r else r.(loop := Raises)
  {
    var line, text := BodyLine(codec, Ev(e))[..b], Printed(codec, e);
    assert text == codec.dumps(JObj(ToJson(e).fields));
    assert line[0] == 'd' && "id: "[0] == 'i' && "data: "[0] == 'd';
    if b >= 6 {
      assert line[..6] == "data: " && line[6..] == text[..b - 6];
    }
  }

  lemma {:induction false} CutHeartbeatTaken(codec: Codec, r: Reading, b: nat)
    requires 0 < b <= |": heartbeat"|
    ensures TakeLine(codec, r, ": heartbeat"[..b]) == r
  {
    assert ": heartbeat"[..b][0] == ':';
  }

  /** The body's part of a cut frame. */
  lemma {:induction false} CutBodyFolded(codec: Codec, r: Reading, item: Item, b: nat, clean: bool)
    requires codec.Valid() && codec.Delimited() && r.loop == Goes && b <= |BodyLine(codec, item)| + 1
    ensures var body := BodyLine(codec, item);
            Fold(Taker(codec), r, LinesGiven((body + "\n" + "\n")[..b], clean))
            == if b >= |body| + (if clean then 0 else 1) then WholeRead(r, item).(id := r.id)
               else if clean && item.Ev? && b >= 6 then r.(loop := Raises)
               else r
  {
    var body := BodyLine(codec, item);
    BodyIsOneLine(codec, item);
    BodyTaken(codec, r, item);
    if b <= |body| {
      assert (body + "\n" + "\n")[..b] == body[..b];
      TailFolded(codec, r, body[..b], clean);
      if b == |body| {
        assert body[..b] == body && body != "";
      } else if b > 0 && item.Ev? {
        CutBodyTaken(codec, r, item.event, b);
      } else if b > 0 {
        CutHeartbeatTaken(codec, r, b);
      }
    } else {
      assert (body + "\n" + "\n")[..b] == body + "\n" + "";
      LineFolded(codec, r, body, "", clean);
      TailFolded(codec, TakeLine(codec, r, body), "", clean);
    }
  }

  lemma {:induction false} CutIdFolded(codec: Codec, r: Reading, item: Item, j: nat, clean: bool)
    requires codec.Valid() && r.loop == Goes && CommitsId(item) && j <= |IdLine(item)|
    ensures Fold(Taker(codec), r, LinesGiven(IdLine(item)[..j], clean))
         == if clean && j == 4 then r.(loop := Raises) else r.(id := IdAt(item, j, clean, r.id))
  {
    var line, n := IdLine(item)[..j], item.event.id;
    BodyIsOneLine(codec, item);
    TailFolded(codec, r, line, clean);
    if clean && j > 4 {
      assert line == "id: " + Dec(n)[..j - 4];
      IdTaken(codec, r, n, j - 4);
    } else if clean && j > 0 {
      ShortIdTaken(codec, r, n, j);
    }
  }

  lemma {:induction false} ShortIdTaken(codec: Codec, r: Reading, n: nat, j: nat)
    requires r.loop == Goes && 0 < j <= 4
    ensures TakeLine(codec, r, ("id: " + Dec(n))[..j]) == if j == 4 then r.(loop := Raises) else r
  {
    var line := ("id: " + Dec(n))[..j];
    assert line[0] == 'i' && "data: "[0] == 'd';
    if j == 4 {
      assert line == "id: " && line[4..] == "";
      assert ParseInt("") == None;
    }
  }

  lemma {:induction false} CutFrameFolded(codec: Codec, r: Reading, item: Item, j: nat, clean: bool)
    requires codec.Valid() && codec.Delimited() && r.loop == Goes && j < |FrameText(codec, item)|
    ensures Fold(Taker(codec), r, LinesGiven(FrameText(codec, item)[..j], clean)) == PartRead(codec, r, item, j, clean)
  {
    var text := BodyLine(codec, item) + "\n" + "\n";
    if !CommitsId(item) {
      CutBodyFolded(codec, r, item, j, clean);
    } else if j <= |IdLine(item)| {
      assert FrameText(codec, item)[..j] == IdLine(item)[..j];
      CutIdFolded(codec, r, item, j, clean);
    } else {
      var b := j - |IdLine(item)| - 1;
      assert FrameText(codec, item)[..j] == IdLine(item) + "\n" + text[..b];
      BodyIsOneLine(codec, item);
      LineFolded(codec, r, IdLine(item), text[..b], clean);
      IdLineTaken(codec, r, item);
      CutBodyFolded(codec, r.(id := item.event.id), item, b, clean);
    }
  }

  // ---- A response cut anywhere ----

  function FrameSize(codec: Codec): Item -> nat {
    (item: Item) => |FrameText(codec, item)|
  }

  function PartReader(codec: Codec, clean: bool): (Reading, Item, nat) -> Reading {
    (r: Reading, item: Item, j: nat) => if r.loop == Goes then PartRead(codec, r, item, j, clean) else r
  }

  lemma {:induction false} FirstFrameFolded(codec: Codec, r: Reading, items: seq<Item>, k: nat, clean: bool)
    requires codec.Valid() && codec.Delimited() && r.loop == Goes && items != [] && k <= |StreamText(codec, items)|
    ensures var frame, rest := FrameText(codec, items[0]), StreamText(codec, items[1..]);
            Fold(Taker(codec), r, LinesGiven(StreamText(codec, items)[..k], clean))
            == if k < |frame| then PartRead(codec, r, items[0], k, clean)
               else Fold(Taker(codec), WholeRead(r, items[0]), LinesGiven(rest[..k - |frame|], clean))
  {
    FirstFrameCut(codec, items, k);
    if k < |FrameText(codec, items[0])| {
      CutFrameFolded(codec, r, items[0], k, clean);
    } else {
      FrameFolded(codec, r, items[0], StreamText(codec, items[1..])[..k - |FrameText(codec, items[0])|], clean);
    }
  }

  lemma {:induction false} StoppedReads(codec: Codec, r: Reading, items: seq<Item>, k: nat, clean: bool)
    requires r.loop != Goes
    ensures FoldUpTo(WholeRead, PartReader(codec, clean), FrameSize(codec), r, items, k) == r
    decreases |items|
  {
    if items != [] && k >= FrameSize(codec)(items[0]) {
      StoppedReads(codec, r, items[1..], k - FrameSize(codec)(items[0]), clean);
    }
  }

  /** The lines of the first k characters, taken one after the other, are the frames taken whole and the part left. */
  ghost predicate CutFolds(codec: Codec, r: Reading, items: seq<Item>, k: nat, clean: bool)
    requires k <= |StreamText(codec, items)|
  {
    Fold(Taker(codec), r, LinesGiven(StreamText(codec, items)[..k], clean))
    == FoldUpTo(WholeRead, PartReader(codec, clean), FrameSize(codec), r, items, k)
  }

  lemma {:induction false} CutFoldsStopped(codec: Codec, r: Reading, items: seq<Item>, k: nat, clean: bool)
    requires k <= |StreamText(codec, items)| && (r.loop != Goes || items == [])
    ensures CutFolds(codec, r, items, k, clean)
  {
    if r.loop != Goes {
      StoppedStays(codec, r, LinesGiven(StreamText(codec, items)[..k], clean));
      StoppedReads(codec, r, items, k, clean);
    } else {
      TailFolded(codec, r, "", clean);
    }
  }

  lemma {:induction false} CutFoldsFirst(codec: Codec, r: Reading, items: seq<Item>, k: nat, clean: bool)
    requires codec.Valid() && codec.Delimited() && k <= |StreamText(codec, items)|
    requires r.loop == Goes && items != []
    requires k >= |FrameText(codec, items[0])| ==>
               CutFolds(codec, WholeRead(r, items[0]), items[1..], k - |FrameText(codec, items[0])|, clean)
    ensures CutFolds(codec, r, items, k, clean)
  {
    FirstFrameFolded(codec, r, items, k, clean);
    FirstFrameRead(codec, r, items, k, clean);
  }

  lemma {:induction false} FirstFrameRead(codec: Codec, r: Reading, items: seq<Item>, k: nat, clean: bool)
    requires r.loop == Goes && items != []
    ensures var part, size, first := PartReader(codec, clean), FrameSize(codec), |FrameText(codec, items[0])|;
            FoldUpTo(WholeRead, part, size, r, items, k)
            == if k < first then PartRead(codec, r, items[0], k, clean)
               else FoldUpTo(WholeRead, part, size, WholeRead(r, items[0]), items[1..], k - first)
  {
    assert FrameSize(codec)(items[0]) == |FrameText(codec, items[0])|;
  }

  lemma {:induction false} CutStreamFolded(codec: Codec, r: Reading, items: seq<Item>, k: nat, clean: bool)
    requires codec.Valid() && codec.Delimited() && k <= |StreamText(codec, items)|
    ensures CutFolds(codec, r, items, k, clean)
    decreases |items|
  {
    if r.loop != Goes || items == [] {
      CutFoldsStopped(codec, r, items, k, clean);
    } else {
      if k >= |FrameText(codec, items[0])| {
        CutStreamFolded(codec, WholeRead(r, items[0]), items[1..], k - |FrameText(codec, items[0])|, clean);
      }
      CutFoldsFirst(codec, r, items, k, clean);
    }
  }

  lemma {:induction false} FirstFrameCut(codec: Codec, items: seq<Item>, k: nat)
    requires items != [] && k <= |StreamText(codec, items)|
    ensures var frame, rest := FrameText(codec, items[0]), StreamText(codec, items[1..]);
            StreamText(codec, items)[..k] == if k < |frame| then frame[..k] else frame + rest[..k - |frame|]
  {
  }

  /** Only the last event can close the stream. */
  ghost predicate ClosesAtMostLast(items: seq<Item>) {
    forall i | 0 <= i < |items| - 1 && items[i].Ev? :: !Closes(items[i].event)
  }

  lemma {:induction false} RowsDoNotClose(rows: seq<LogRow>, turn: Option<nat>)
    ensures forall e | e in FormatRows(rows, turn) :: !Closes(e)
  {
    if rows != [] {
      RowsDoNotClose(rows[1..], TurnAfter(rows[0], turn));
    }
  }

  lemma {:induction false} TailClosesAtMostLast(log: seq<LogRow>, st: TailState, polls: seq<Poll>)
    ensures ClosesAtMostLast(Tail(log, st, polls).items)
    decreases |polls|
  {
    if polls != [] {
      RowsDoNotClose(ChunkOf(log, st, polls[0]), st.lastTurn);
      if Closing(log, st, polls[0]).0 == Open {
        TailClosesAtMostLast(log, NextState(log, st, polls[0]), polls[1..]);
      }
    }
  }

  lemma {:induction false} ConnectionClosesAtMostLast(log: seq<LogRow>, since: nat, conn: Connection)
    requires conn.start.Start?
    ensures ClosesAtMostLast(ConnectionItems(log, since, conn))
  {
    TailClosesAtMostLast(log, StartState(since, conn.clock), conn.polls);
  }

  function AsJson(events: seq<Event>): seq<Json> {
    seq(|events|, i requires 0 <= i < |events| => ToJson(events[i]))
  }

  predicate EndsClosed(items: seq<Item>) {
    items != [] && items[|items| - 1].Ev? && Closes(items[|items| - 1].event)
  }

  /** The client that has been given these items, starting from this cursor. */
  function Given(events: seq<Json>, since: nat, items: seq<Item>): Reading {
    Reading(events + AsJson(EventsIn(items)), CursorAfter(items, since), if EndsClosed(items) then Returns else Goes)
  }

  /** How many items the client is given when the response stops there. */
  function GivenTo(codec: Codec, items: seq<Item>, p: Place, clean: bool): (m: nat)
    requires p.whole <= |items|
    ensures m <= |items|
  {
    if p.whole < |items| && BodyGiven(codec, items[p.whole], p.into, clean) then p.whole + 1 else p.whole
  }

  /** What the part that came of an item does which is not given. */
  function AfterPart(codec: Codec, r: Reading, item: Item, j: nat, clean: bool): Reading {
    var held := r.(id := IdAt(item, j, clean, r.id));
    if Chokes(codec, item, j, clean) then held.(loop := Raises) else held
  }

  function ReadTo(codec: Codec, events: seq<Json>, since: nat, items: seq<Item>, p: Place, clean: bool): Reading
    requires p.whole <= |items|
  {
    var m := GivenTo(codec, items, p, clean);
    var given := Given(events, since, items[..m]);
    if m == p.whole < |items| then AfterPart(codec, given, items[m], p.into, clean) else given
  }

  lemma {:induction false} GivenOne(events: seq<Json>, since: nat, item: Item)
    ensures WholeRead(Reading(events, since, Goes), item) == Given(events, since, [item])
    ensures Given(events, since, []) == Reading(events, since, Goes)
  {
    CursorOfOne(item, since);
    assert AsJson([]) == [] && events + [] == events;
    if item.Ev? {
      assert AsJson([item.event]) == [ToJson(item.event)];
    }
  }

  lemma {:induction false} GivenAppend(events: seq<Json>, since: nat, a: seq<Item>, b: seq<Item>)
    requires !EndsClosed(a)
    ensures var g := Given(events, since, a);
            g.loop == Goes && g.id >= 0 && Given(g.events, g.id, b) == Given(events, since, a + b)
  {
    ItemsAppendParts(a, b, since);
    assert AsJson(EventsIn(a) + EventsIn(b)) == AsJson(EventsIn(a)) + AsJson(EventsIn(b));
    Associative(events, AsJson(EventsIn(a)), AsJson(EventsIn(b)));
    if b == [] {
      assert a + b == a;
    } else {
      assert (a + b)[|a + b| - 1] == b[|b| - 1];
    }
  }

  lemma {:induction false} WholeItemsRead(events: seq<Json>, since: nat, items: seq<Item>, n: nat)
    requires ClosesAtMostLast(items) && n <= |items|
    ensures Fold(WholeRead, Reading(events, since, Goes), items[..n]) == Given(events, since, items[..n])
    decreases n
  {
    if n == 0 {
      GivenOne(events, since, Heartbeat);
      assert items[..0] == [];
    } else {
      var first, last := items[..n - 1], items[n - 1];
      assert items[..n] == first + [last];
      assert n > 1 ==> first[n - 2] == items[n - 2];
      WholeItemsRead(events, since, items, n - 1);
      FoldAppend(WholeRead, Reading(events, since, Goes), first, [last]);
      FoldOne(WholeRead, Given(events, since, first), last);
      OneMoreGiven(events, since, first, last);
    }
  }

  lemma {:induction false} OneMoreGiven(events: seq<Json>, since: nat, items: seq<Item>, item: Item)
    requires !EndsClosed(items)
    ensures WholeRead(Given(events, since, items), item) == Given(events, since, items + [item])
  {
    var g := Given(events, since, items);
    GivenAppend(events, since, items, [item]);
    GivenOne(g.events, g.id, item);
  }

  /** In closed form: what was given whole, and what is left of the frame where the response stops. */
  lemma {:induction false} ReadInPlace(
    codec: Codec, events: seq<Json>, since: nat, items: seq<Item>, k: nat, clean: bool)
    requires ClosesAtMostLast(items)
    ensures FoldUpTo(WholeRead, PartReader(codec, clean), FrameSize(codec), Reading(events, since, Goes), items, k)
         == ReadTo(codec, events, since, items, PlaceOf(FrameSize(codec), items, k), clean)
  {
    var p := PlaceOf(FrameSize(codec), items, k);
    FoldUpToPlace(WholeRead, PartReader(codec, clean), FrameSize(codec), Reading(events, since, Goes), items, k);
    WholeItemsRead(events, since, items, p.whole);
    if p.whole < |items| {
      PartInPlace(codec, events, since, items, p, clean);
    }
  }

  lemma {:induction false} PartInPlace(
    codec: Codec, events: seq<Json>, since: nat, items: seq<Item>, p: Place, clean: bool)
    requires ClosesAtMostLast(items) && p.whole < |items|
    ensures PartReader(codec, clean)(Given(events, since, items[..p.whole]), items[p.whole], p.into)
         == ReadTo(codec, events, since, items, p, clean)
  {
    var first := items[..p.whole];
    assert items[..p.whole + 1] == first + [items[p.whole]];
    assert p.whole > 0 ==> first[p.whole - 1] == items[p.whole - 1];
    OneMoreGiven(events, since, first, items[p.whole]);
  }

  // ---- One response of the server ----

  function ItemsOf(log: seq<LogRow>, since: nat, a: Response): seq<Item> {
    ConnectionItems(log, since, a.conn)
  }

  /** Where the response stops. */
  function StopOf(codec: Codec, log: seq<LogRow>, since: nat, a: Response): (p: Place)
    ensures p.whole <= |ItemsOf(log, since, a)|
  {
    var items := ItemsOf(log, since, a);
    PlaceOf(FrameSize(codec), items, Min(a.conn.cut, |StreamText(codec, items)|))
  }

  /** What a client that goes on makes of a response which stops after any number of characters. */
  lemma {:induction false} ResponseRead(codec: Codec, log: seq<LogRow>, r: Reading, a: Response)
    requires codec.Valid() && codec.Delimited() && a.conn.start.Start? && r.loop == Goes && r.id >= 0
    ensures var read := ReadTo(codec, r.events, r.id, ItemsOf(log, r.id, a), StopOf(codec, log, r.id, a), a.clean);
            AfterResponse(codec, log, r, a) == if read.loop == Goes && !a.clean then read.(loop := Raises) else read
  {
    var items := ItemsOf(log, r.id, a);
    var k := Min(a.conn.cut, |StreamText(codec, items)|);
    ConnectionClosesAtMostLast(log, r.id, a.conn);
    CutStreamFolded(codec, r, items, k, a.clean);
    ReadInPlace(codec, r.events, r.id, items, k, a.clean);
  }
}
