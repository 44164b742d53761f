/** The TypeScript SDK's SSE reader (clients/typescript/src/stream.ts), and the line rules the Python SDK shares. */
module TsClient {
  import opened Prelude
  import opened Json
  import opened Decimal
  import opened Lines
  import opened StreamFormat
  import opened LogTail
  import opened TailProperties
  import opened Frames

  /** What an SDK hands to its caller. */
  datatype StreamEvent = StreamEvent(kind: string, id: Option<int>, extra: map<string, Json>)

  /** JavaScript's \s. */
  predicate JsSpace(c: char) {
    || '\t' <= c <= '\r'
    || c in {' ', '\U{a0}', '\U{1680}', '\U{2028}', '\U{2029}', '\U{202f}', '\U{205f}', '\U{3000}', '\U{feff}'}
    || '\U{2000}' <= c <= '\U{200a}'
  }

  function TrimStart(s: string): string {
    if s != "" && JsSpace(s[0]) then TrimStart(s[1..]) else s
  }

  function FromPayload(fields: map<string, Json>): StreamEvent {
    StreamEvent(
      if "type" in fields && fields["type"].JStr? then fields["type"].s else "output",
      if "id" in fields && fields["id"].JNum? then Some(fields["id"].n) else None,
      fields - {"type", "id"})
  }

  /** The type is "output" unless a text says otherwise, an id counts if it is a number, and all else is kept. */
  lemma {:induction false} PayloadKept(fields: map<string, Json>)
    ensures var e := FromPayload(fields);
            && (forall s :: "type" in fields && fields["type"] == JStr(s) ==> e.kind == s)
            && ("type" !in fields || !fields["type"].JStr? ==> e.kind == "output")
            && (forall n :: e.id == Some(n) <==> "id" in fields && fields["id"] == JNum(n))
            && (forall k :: k in e.extra <==> k in fields && k != "type" && k != "id")
            && forall k | k in e.extra :: e.extra[k] == fields[k]
  {
  }

  /** Anything but a data line holding one JSON object is skipped. */
  function ParseDataLine(codec: Codec, line: string): Option<StreamEvent> {
    if !("data:" <= line) then None
    else
      var raw := TrimStart(line[5..]);
      if raw == "" then None
      else
        match codec.loads(raw)
        case None => None
        case Some(payload) => if payload.JObj? then Some(FromPayload(payload.fields)) else None
  }

  function StripCR(line: string): string {
    if line != "" && line[|line| - 1] == '\r' then line[..|line| - 1] else line
  }

  predicate AllJsSpace(s: string) {
    forall i | 0 <= i < |s| :: JsSpace(s[i])
  }

  lemma {:induction false} TrimStartOf(space: string, text: string)
    requires AllJsSpace(space) && text != "" && !JsSpace(text[0])
    ensures TrimStart(space + text) == text
  {
    if space == "" {
      assert space + text == text;
    } else {
      assert (space + text)[0] == space[0] && (space + text)[1..] == space[1..] + text;
      TrimStartOf(space[1..], text);
    }
  }

  /** A data line is read whatever space stands before its object; any other line, and any other value, is not. */
  lemma {:induction false} DataLinesAreRead(codec: Codec, space: string, fields: map<string, Json>)
    requires codec.Valid() && AllJsSpace(space)
    ensures ParseDataLine(codec, "data:" + (space + codec.dumps(JObj(fields)))) == Some(FromPayload(fields))
  {
    var line, text := "data:" + (space + codec.dumps(JObj(fields))), codec.dumps(JObj(fields));
    assert line[..5] == "data:" && line[5..] == space + text && text[0] == '{';
    TrimStartOf(space, text);
  }

  lemma {:induction false} OtherLinesAreSkipped(codec: Codec, space: string, text: string)
    requires AllJsSpace(space) && text != "" && !JsSpace(text[0])
    requires codec.loads(text) == None || !codec.loads(text).value.JObj?
    ensures ParseDataLine(codec, "data:" + (space + text)) == None
    ensures forall line: string | !("data:" <= line) :: ParseDataLine(codec, line) == None
  {
    var line := "data:" + (space + text);
    assert line[..5] == "data:" && line[5..] == space + text;
    TrimStartOf(space, text);
  }

  function EventsOfLines(codec: Codec, lines: seq<string>): seq<StreamEvent> {
    Collect(LineReader(codec), lines)
  }

  function LineReader(codec: Codec): string -> seq<StreamEvent> {
    (line: string) => LineEvent(codec, line)
  }

  function LineEvent(codec: Codec, line: string): seq<StreamEvent> {
    var e := ParseDataLine(codec, StripCR(line));
    if e.Some? then [e.value] else []
  }

  /** The unterminated tail is one more line, taken as it is. */
  function EventsOfTail(codec: Codec, tail: string): seq<StreamEvent> {
    if tail == "" then []
    else
      var e := ParseDataLine(codec, tail);
      if e.Some? then [e.value] else []
  }

  /** The one-shot reading of a whole text; `flush` is what the decoder still held. */
  function EventsOfText(codec: Codec, text: string, flush: string): seq<StreamEvent> {
    EventsOfLines(codec, Complete(text, '\n')) + EventsOfTail(codec, Rest(text, '\n') + flush)
  }

  lemma {:induction false} EventsOfLinesAppend(codec: Codec, a: seq<string>, b: seq<string>)
    ensures EventsOfLines(codec, a + b) == EventsOfLines(codec, a) + EventsOfLines(codec, b)
  {
    CollectAppend(LineReader(codec), a, b);
  }

  /** The events of the terminated lines of a text. */
  function LineEvents(codec: Codec, text: string): seq<StreamEvent> {
    EventsOfLines(codec, Complete(text, '\n'))
  }

  lemma {:induction false} FirstLineEvents(codec: Codec, before: seq<StreamEvent>, text: string)
    requires IndexOf(text, '\n') < |text|
    ensures var k := IndexOf(text, '\n');
            && before + LineEvents(codec, text)
               == before + LineEvent(codec, text[..k]) + LineEvents(codec, text[k + 1..])
            && Rest(text, '\n') == Rest(text[k + 1..], '\n')
  {
    var k := IndexOf(text, '\n');
    FirstComplete(text, '\n');
    Associative(before, LineEvent(codec, text[..k]), LineEvents(codec, text[k + 1..]));
  }

  lemma MoreLineEvents(codec: Codec, seen: string, chunk: string)
    ensures LineEvents(codec, seen + chunk) == LineEvents(codec, seen) + LineEvents(codec, Rest(seen, '\n') + chunk)
    ensures Rest(seen + chunk, '\n') == Rest(Rest(seen, '\n') + chunk, '\n')
  {
    SplitInPieces(seen, chunk, '\n');
    EventsOfLinesAppend(codec, Complete(seen, '\n'), Complete(Rest(seen, '\n') + chunk, '\n'));
  }

  method ReadRawLine(codec: Codec, rawLine: string) returns (events: seq<StreamEvent>)
    ensures events == LineEvent(codec, rawLine)
  {
    var line := if rawLine != "" && rawLine[|rawLine| - 1] == '\r' then rawLine[..|rawLine| - 1] else rawLine;
    var event := ParseDataLine(codec, line);
    events := [];
    if event.Some? {
      events := events + [event.value];
    }
  }

  /** The inner loop: everything terminated in the buffer is yielded, the rest stays. */
  method DrainBuffer(codec: Codec, start: string) returns (events: seq<StreamEvent>, buffer: string)
    ensures events == LineEvents(codec, start) && buffer == Rest(start, '\n')
  {
    buffer, events := start, [];
    var newlineIndex := IndexOf(buffer, '\n');
    while newlineIndex < |buffer|
      invariant newlineIndex == IndexOf(buffer, '\n')
      invariant LineEvents(codec, start) == events + LineEvents(codec, buffer)
      invariant Rest(start, '\n') == Rest(buffer, '\n')
      decreases |buffer|
    {
      FirstLineEvents(codec, events, buffer);
      var more := ReadRawLine(codec, buffer[..newlineIndex]);
      buffer := buffer[newlineIndex + 1..];
      events := events + more;
      newlineIndex := IndexOf(buffer, '\n');
    }
  }

  lemma FlattenGrows(chunks: seq<string>, i: nat)
    requires i < |chunks|
    ensures Flatten(chunks[..i + 1]) == Flatten(chunks[..i]) + chunks[i]
  {
    assert chunks[..i + 1] == chunks[..i] + [chunks[i]];
    FlattenAppend(chunks[..i], [chunks[i]]);
    assert Flatten([chunks[i]]) == chunks[i] + Flatten([]);
  }

  /** However the text is cut into chunks, the events are those of the whole text. */
  method IterateSSE(codec: Codec, chunks: seq<string>, flush: string) returns (events: seq<StreamEvent>)
    ensures events == EventsOfText(codec, Flatten(chunks), flush)
  {
    var buffer := "";
    events := [];
    for i := 0 to |chunks|
      invariant events == LineEvents(codec, Flatten(chunks[..i])) && buffer == Rest(Flatten(chunks[..i]), '\n')
    {
      MoreLineEvents(codec, Flatten(chunks[..i]), chunks[i]);
      FlattenGrows(chunks, i);
      var more;
      more, buffer := DrainBuffer(codec, buffer + chunks[i]);
      events := events + more;
    }
    assert chunks[..|chunks|] == chunks;
    buffer := buffer + flush;
    if |buffer| > 0 {
      var event := ParseDataLine(codec, buffer);
      if event.Some? {
        events := events + [event.value];
      }
    }
  }

  // ---- Line ends ----

  /** Each line with a carriage return behind it or not. */
  function WithEnds(lines: seq<string>, carriage: seq<bool>): seq<string>
    requires |carriage| == |lines|
  {
    seq(|lines|, i requires 0 <= i < |lines| => if carriage[i] then lines[i] + "\r" else lines[i])
  }

  function Parsed(codec: Codec, lines: seq<string>): seq<StreamEvent> {
    if lines == [] then []
    else
      var e := ParseDataLine(codec, lines[0]);
      (if e.Some? then [e.value] else []) + Parsed(codec, lines[1..])
  }

  lemma {:induction false} EndIsStripped(line: string, carriage: bool)
    requires !carriage && line != "" ==> line[|line| - 1] != '\r'
    ensures StripCR(if carriage then line + "\r" else line) == line
  {
    assert (line + "\r")[..|line|] == line;
  }

  lemma {:induction false} EndsDoNotMatter(codec: Codec, lines: seq<string>, carriage: seq<bool>)
    requires |carriage| == |lines|
    requires forall i | 0 <= i < |lines| && !carriage[i] && lines[i] != "" :: lines[i][|lines[i]| - 1] != '\r'
    ensures EventsOfLines(codec, WithEnds(lines, carriage)) == Parsed(codec, lines)
    decreases |lines|
  {
    if lines != [] {
      EndIsStripped(lines[0], carriage[0]);
      assert WithEnds(lines, carriage)[1..] == WithEnds(lines[1..], carriage[1..]);
      EndsDoNotMatter(codec, lines[1..], carriage[1..]);
    }
  }

  /** Lines ended by "\n" or "\r\n", and a last one that is not ended, are all read, each once and in order. */
  lemma {:induction false} EveryLineIsRead(codec: Codec, lines: seq<string>, carriage: seq<bool>, tail: string)
    requires |carriage| == |lines| && '\n' !in tail
    requires forall i | 0 <= i < |lines| ::
               '\n' !in lines[i] && (!carriage[i] && lines[i] != "" ==> lines[i][|lines[i]| - 1] != '\r')
    ensures EventsOfText(codec, Terminated(WithEnds(lines, carriage), '\n') + tail, "")
         == Parsed(codec, lines) + if tail == "" then [] else Parsed(codec, [tail])
  {
    var written := WithEnds(lines, carriage);
    forall line | line in written ensures '\n' !in line {
      var i :| 0 <= i < |written| && written[i] == line;
    }
    LinesAndTail(written, tail);
    EndsDoNotMatter(codec, lines, carriage);
    assert tail + "" == tail && [tail][1..] == [];
  }

  lemma {:induction false} LinesAndTail(lines: seq<string>, tail: string)
    requires '\n' !in tail && forall line | line in lines :: '\n' !in line
    ensures Complete(Terminated(lines, '\n') + tail, '\n') == lines
    ensures Rest(Terminated(lines, '\n') + tail, '\n') == tail
  {
    AllTerminated(lines, '\n');
    SplitInPieces(Terminated(lines, '\n'), tail, '\n');
    SplitNone(tail, '\n');
    assert [] + tail == tail && lines + [] == lines;
  }

  // ---- On the server's frames ----

  function ToStreamEvent(e: Event): StreamEvent {
    StreamEvent(TypeName(e), if e.Start? then None else Some(e.id), Payload(e))
  }

  function ToStreamEvents(events: seq<Event>): seq<StreamEvent> {
    seq(|events|, i requires 0 <= i < |events| => ToStreamEvent(events[i]))
  }

  lemma {:induction false} PayloadReadBack(e: Event)
    ensures FromPayload(ToJson(e).fields) == ToStreamEvent(e)
  {
    PayloadKeys(e);
    assert "type" != "id" by { assert |"type"| == 4 && |"id"| == 2; }
    assert ToJson(e).fields - {"type", "id"} == Payload(e);
  }

  lemma {:induction false} DataLineRead(codec: Codec, e: Event)
    requires codec.Valid()
    ensures ParseDataLine(codec, BodyLine(codec, Ev(e))) == Some(ToStreamEvent(e))
    ensures StripCR(BodyLine(codec, Ev(e))) == BodyLine(codec, Ev(e))
  {
    var line, text := BodyLine(codec, Ev(e)), Printed(codec, e);
    assert text == codec.dumps(JObj(ToJson(e).fields)) && text[0] == '{';
    assert line[..5] == "data:" && line[5] == ' ' && line[5..][1..] == text;
    assert TrimStart(text) == text && TrimStart(line[5..]) == text;
    assert Printable(text) && line[|line| - 1] == text[|text| - 1];
    PayloadReadBack(e);
  }

  lemma SkippedLines(codec: Codec, item: Item)
    ensures ParseDataLine(codec, StripCR("")) == None
    ensures ParseDataLine(codec, StripCR(": heartbeat")) == None
    ensures CommitsId(item) ==> ParseDataLine(codec, StripCR(IdLine(item))) == None
  {
    assert ": heartbeat"[0] == ':' && "data:"[0] == 'd';
    if CommitsId(item) {
      assert IdLine(item)[0] == 'i';
      assert IdLine(item)[|IdLine(item)| - 1] != '\r' by {
        assert IsDigit(Dec(item.event.id)[|Dec(item.event.id)| - 1]);
      }
    }
  }

  function LineCount(item: Item): nat {
    if CommitsId(item) then 3 else 2
  }

  /** The lines of a frame. */
  function ItemLines(codec: Codec, item: Item): (lines: seq<string>)
    ensures |lines| == LineCount(item)
  {
    if CommitsId(item) then [IdLine(item), BodyLine(codec, item), ""] else [BodyLine(codec, item), ""]
  }

  function StreamLines(codec: Codec, items: seq<Item>): seq<string> {
    Collect(FrameLines(codec), items)
  }

  function FrameLines(codec: Codec): Item -> seq<string> {
    (item: Item) => ItemLines(codec, item)
  }

  lemma {:induction false} FrameIsLines(codec: Codec, item: Item)
    requires codec.Valid()
    ensures FrameText(codec, item) == Terminated(ItemLines(codec, item), '\n')
    ensures forall line | line in ItemLines(codec, item) :: '\n' !in line
  {
    var lines, body := ItemLines(codec, item), BodyLine(codec, item);
    if item.Ev? {
      assert Printable(Printed(codec, item.event));
    }
    assert [""][1..] == [] && [body, ""][1..] == [""];
    assert Terminated([""], '\n') == "\n";
    assert Terminated([body, ""], '\n') == body + "\n" + "\n";
    if CommitsId(item) {
      assert lines[1..] == [body, ""];
      assert Terminated(lines, '\n') == IdLine(item) + "\n" + (body + "\n" + "\n");
      assert forall c | c in Dec(item.event.id) :: IsDigit(c);
    }
  }

  lemma {:induction false} StreamIsLines(codec: Codec, items: seq<Item>)
    requires codec.Valid()
    ensures StreamText(codec, items) == Terminated(StreamLines(codec, items), '\n')
    ensures forall line | line in StreamLines(codec, items) :: '\n' !in line
  {
    if items != [] {
      FrameIsLines(codec, items[0]);
      StreamIsLines(codec, items[1..]);
      TerminatedAppend(ItemLines(codec, items[0]), StreamLines(codec, items[1..]), '\n');
    }
  }

  lemma BodyEvent(codec: Codec, item: Item)
    requires codec.Valid()
    ensures LineEvent(codec, BodyLine(codec, item)) == ToStreamEvents(EventsIn([item]))
  {
    assert [item][1..] == [];
    if item.Ev? {
      DataLineRead(codec, item.event);
    } else {
      SkippedLines(codec, item);
    }
  }

  lemma OneLineRead(codec: Codec, line: string)
    ensures EventsOfLines(codec, [line]) == LineEvent(codec, line)
  {
    CollectOne(LineReader(codec), line);
  }

  /** A frame gives its event once its body line is complete. */
  lemma {:induction false} EventsOfTerminated(codec: Codec, lines: seq<string>)
    requires forall line | line in lines :: '\n' !in line
    ensures EventsOfText(codec, Terminated(lines, '\n'), "") == EventsOfLines(codec, lines)
  {
    AllTerminated(lines, '\n');
    assert EventsOfTail(codec, "" + "") == [];
  }

  lemma {:induction false} OneLineMore(codec: Codec, lines: seq<string>, n: nat)
    requires n < |lines|
    ensures EventsOfLines(codec, lines[..n + 1]) == EventsOfLines(codec, lines[..n]) + LineEvent(codec, lines[n])
  {
    assert lines[..n + 1] == lines[..n] + [lines[n]];
    EventsOfLinesAppend(codec, lines[..n], [lines[n]]);
    OneLineRead(codec, lines[n]);
  }

  /** Only the body line of a frame, the last but one, holds an event. */
  lemma {:induction false} LineOfFrame(codec: Codec, item: Item, k: nat)
    requires codec.Valid() && k < |ItemLines(codec, item)|
    ensures LineEvent(codec, ItemLines(codec, item)[k]) ==
            if k + 2 == |ItemLines(codec, item)| then ToStreamEvents(EventsIn([item])) else []
  {
    SkippedLines(codec, item);
    BodyEvent(codec, item);
  }

  lemma {:induction false} FrameEvents(codec: Codec, item: Item, n: nat)
    requires codec.Valid() && n <= |ItemLines(codec, item)|
    ensures EventsOfLines(codec, ItemLines(codec, item)[..n]) ==
            if n + 1 >= |ItemLines(codec, item)| then ToStreamEvents(EventsIn([item])) else []
  {
    var lines := ItemLines(codec, item);
    if n == 0 {
      assert lines[..0] == [];
    } else {
      FrameEvents(codec, item, n - 1);
      OneLineMore(codec, lines, n - 1);
      LineOfFrame(codec, item, n - 1);
    }
  }

  lemma {:induction false} WholeItemEvents(codec: Codec, item: Item)
    requires codec.Valid()
    ensures EventsOfLines(codec, ItemLines(codec, item)) == ToStreamEvents(EventsIn([item]))
  {
    var lines := ItemLines(codec, item);
    FrameEvents(codec, item, |lines|);
    assert lines[..|lines|] == lines;
  }

  /** How many items have their body line among the first n lines. */
  function ItemsWithin(codec: Codec, items: seq<Item>, n: nat): (m: nat)
    ensures m <= |items|
  {
    var w := WholeWithin(FrameLines(codec), items, n);
    if w < |items| && IntoNext(FrameLines(codec), items, n) + 1 >= LineCount(items[w]) then w + 1 else w
  }

  lemma ToStreamEventsAppend(a: seq<Item>, b: seq<Item>)
    ensures ToStreamEvents(EventsIn(a + b)) == ToStreamEvents(EventsIn(a)) + ToStreamEvents(EventsIn(b))
  {
    ItemsAppendParts(a, b, 0);
  }

  lemma {:induction false} EventsOfAllLines(codec: Codec, items: seq<Item>)
    requires codec.Valid()
    ensures EventsOfLines(codec, StreamLines(codec, items)) == ToStreamEvents(EventsIn(items))
    decreases |items|
  {
    if items != [] {
      WholeItemEvents(codec, items[0]);
      EventsOfAllLines(codec, items[1..]);
      EventsOfLinesAppend(codec, ItemLines(codec, items[0]), StreamLines(codec, items[1..]));
      ToStreamEventsAppend([items[0]], items[1..]);
      assert items == [items[0]] + items[1..];
    }
  }

  lemma {:induction false} EventsOfCutFrame(codec: Codec, items: seq<Item>, w: nat, r: nat)
    requires codec.Valid() && w < |items| && r <= LineCount(items[w])
    ensures EventsOfLines(codec, StreamLines(codec, items[..w]) + ItemLines(codec, items[w])[..r])
         == ToStreamEvents(EventsIn(items[..if r + 1 >= LineCount(items[w]) then w + 1 else w]))
  {
    var whole, cut := StreamLines(codec, items[..w]), ItemLines(codec, items[w])[..r];
    EventsOfAllLines(codec, items[..w]);
    EventsOfLinesAppend(codec, whole, cut);
    FrameEvents(codec, items[w], r);
    UpToItem(items, w);
  }

  lemma {:induction false} UpToItem(items: seq<Item>, w: nat)
    requires w < |items|
    ensures ToStreamEvents(EventsIn(items[..w + 1]))
         == ToStreamEvents(EventsIn(items[..w])) + ToStreamEvents(EventsIn([items[w]]))
  {
    assert items[..w + 1] == items[..w] + [items[w]];
    ToStreamEventsAppend(items[..w], [items[w]]);
  }

  /** The first n lines: the frames that are whole, and the lines of the next one that n reaches. */
  lemma {:induction false} FirstLines(codec: Codec, items: seq<Item>, n: nat)
    requires n <= |StreamLines(codec, items)|
    ensures var w, r := WholeWithin(FrameLines(codec), items, n), IntoNext(FrameLines(codec), items, n);
            if w == |items| then StreamLines(codec, items)[..n] == StreamLines(codec, items)
            else r < LineCount(items[w])
                 && StreamLines(codec, items)[..n] == StreamLines(codec, items[..w]) + ItemLines(codec, items[w])[..r]
  {
    TakeCollected(FrameLines(codec), items, n);
  }

  lemma {:induction false} EventsOfFirstLines(codec: Codec, items: seq<Item>, n: nat)
    requires codec.Valid() && n <= |StreamLines(codec, items)|
    ensures EventsOfLines(codec, StreamLines(codec, items)[..n])
         == ToStreamEvents(EventsIn(items[..ItemsWithin(codec, items, n)]))
  {
    var w := WholeWithin(FrameLines(codec), items, n);
    FirstLines(codec, items, n);
    if w == |items| {
      EventsOfAllLines(codec, items);
      assert items[..w] == items;
    } else {
      EventsOfCutFrame(codec, items, w, IntoNext(FrameLines(codec), items, n));
    }
  }

  /** Cut k characters into what follows the frames of a: all of a, and what k characters of the rest hold. */
  lemma {:induction false} CutBehindFrames(codec: Codec, a: seq<Item>, b: seq<Item>, k: nat)
    requires codec.Valid()
    ensures LinesWithin(StreamLines(codec, a + b), |StreamText(codec, a)| + k)
         == |StreamLines(codec, a)| + LinesWithin(StreamLines(codec, b), k)
  {
    StreamIsLines(codec, a);
    CollectAppend(FrameLines(codec), a, b);
    LinesWithinBoth(StreamLines(codec, a), StreamLines(codec, b), '\n', k);
  }

  /** The first line of an item and its newline hold one line. */
  lemma {:induction false} CutBehindFirstLine(codec: Codec, items: seq<Item>)
    requires items != []
    ensures LinesWithin(StreamLines(codec, items), |ItemLines(codec, items[0])[0]| + 1) == 1
    ensures WholeWithin(FrameLines(codec), items, 1) == 0 && IntoNext(FrameLines(codec), items, 1) == 1
  {
    var lines := StreamLines(codec, items);
    assert lines[0] == ItemLines(codec, items[0])[0];
    assert LinesWithin(lines[1..], 0) == 0;
  }

  /** Where the text stands right behind the first line of the first frame of b. */
  function BehindLine(codec: Codec, a: seq<Item>, b: seq<Item>): nat
    requires b != []
  {
    |StreamText(codec, a)| + (|ItemLines(codec, b[0])[0]| + 1)
  }

  lemma {:induction false} BehindLineIsInside(codec: Codec, a: seq<Item>, b: seq<Item>)
    requires b != []
    ensures BehindLine(codec, a, b) <= |StreamText(codec, a + b)|
  {
    StreamTextAppend(codec, a, b);
  }

  lemma {:induction false} CutBehindLine(codec: Codec, a: seq<Item>, b: seq<Item>)
    requires codec.Valid() && b != []
    ensures LinesWithin(StreamLines(codec, a + b), BehindLine(codec, a, b)) == |StreamLines(codec, a)| + 1
    ensures WholeWithin(FrameLines(codec), a + b, |StreamLines(codec, a)| + 1) == |a|
    ensures IntoNext(FrameLines(codec), a + b, |StreamLines(codec, a)| + 1) == 1
  {
    CutBehindFrames(codec, a, b, |ItemLines(codec, b[0])[0]| + 1);
    CutBehindFirstLine(codec, b);
    WholeBoth(FrameLines(codec), a, b, 1);
  }

  /** The items whose body line is complete within the first k characters. */
  function Seen(codec: Codec, items: seq<Item>, k: nat): (m: nat)
    ensures m <= |items|
  {
    ItemsWithin(codec, items, LinesWithin(StreamLines(codec, items), k))
  }

  /** A line reader given the first k characters of a stream has exactly the events whose line is complete. */
  lemma {:induction false} CutStreamLines(codec: Codec, items: seq<Item>, k: nat)
    requires codec.Valid() && k <= |StreamText(codec, items)|
    ensures EventsOfLines(codec, Complete(StreamText(codec, items)[..k], '\n'))
         == ToStreamEvents(EventsIn(items[..Seen(codec, items, k)]))
  {
    StreamIsLines(codec, items);
    CutTerminated(StreamLines(codec, items), '\n', k);
    EventsOfFirstLines(codec, items, LinesWithin(StreamLines(codec, items), k));
  }

  /** Whatever the chunking, reading the server's frames gives the server's events, heartbeats dropped. */
  lemma {:induction false} ReadingUndoesFraming(codec: Codec, items: seq<Item>, chunks: seq<string>)
    requires codec.Valid() && Flatten(chunks) == StreamText(codec, items)
    ensures EventsOfText(codec, Flatten(chunks), "") == ToStreamEvents(EventsIn(items))
  {
    StreamIsLines(codec, items);
    EventsOfTerminated(codec, StreamLines(codec, items));
    EventsOfAllLines(codec, items);
  }
}
