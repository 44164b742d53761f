/** The server's frames as a WHATWG reader takes them, character by character, cut anywhere. */
module FrameReading {
  import opened Prelude
  import opened Json
  import opened Decimal
  import opened StreamFormat
  import opened LogTail
  import opened TailProperties
  import opened Frames
  import opened Sse

  // ---- One frame ----

  ghost predicate AtBoundary(p: Parser) {
    p.line == "" && !p.afterCR && p.data == ""
  }

  function IdAfter(items: seq<Item>, id: string): string {
    if items == [] then id
    else IdAfter(items[1..], if CommitsId(items[0]) then Dec(items[0].event.id) else id)
  }

  function AllPrinted(codec: Codec, events: seq<Event>): seq<string> {
    seq(|events|, i requires 0 <= i < |events| => Printed(codec, events[i]))
  }

  /** The parser after whole frames: each of them, a heartbeat too, commits the id buffer. */
  function After(codec: Codec, p: Parser, items: seq<Item>): Parser {
    if items == [] then p
    else
      var id := IdAfter(items, p.idBuffer);
      p.(idBuffer := id, lastEventId := id, dispatched := p.dispatched + AllPrinted(codec, EventsIn(items)))
  }

  lemma {:induction false} IdLineFields(n: nat)
    ensures var line := "id: " + Dec(n);
            FieldName(line) == "id" && FieldValue(line) == Dec(n) && '\0' !in Dec(n) && OneLine(line) && line != ""
              && line[0] != ':'
  {
    var line := "id: " + Dec(n);
    assert line[0] == 'i' && line[1] == 'd' && line[2] == ':' && line[3] == ' ';
    assert ColonAt(line[2..]) == 0;
    assert line[1..][1..] == line[2..];
    assert ColonAt(line[1..]) == 1;
    assert ColonAt(line) == 2;
    assert line[..2] == "id" && line[4..] == Dec(n);
    assert forall c | c in Dec(n) :: IsDigit(c);
  }

  lemma DataLineFields(s: string)
    requires OneLine(s)
    ensures var line := "data: " + s;
            FieldName(line) == "data" && FieldValue(line) == s && OneLine(line) && line != "" && line[0] != ':'
  {
    var line := "data: " + s;
    assert line[0] == 'd' && line[1] == 'a' && line[2] == 't' && line[3] == 'a' && line[4] == ':' && line[5] == ' ';
    assert line[3..][1..] == line[4..] && line[2..][1..] == line[3..] && line[1..][1..] == line[2..];
    assert ColonAt(line[4..]) == 0;
    assert ColonAt(line[3..]) == 1;
    assert ColonAt(line[2..]) == 2;
    assert ColonAt(line[1..]) == 3;
    assert ColonAt(line) == 4;
    assert line[..4] == "data" && line[6..] == s;
  }

  /** What the body line of a frame leaves in the parser. */
  function Buffered(codec: Codec, p: Parser, item: Item): Parser {
    if item.Ev? then p.(data := Printed(codec, item.event) + "\n") else p
  }

  lemma {:induction false} BodyLineProcessed(codec: Codec, p: Parser, item: Item)
    requires codec.Valid() && p.data == ""
    ensures OneLine(BodyLine(codec, item)) && BodyLine(codec, item) != ""
    ensures ProcessLine(p, BodyLine(codec, item)) == Buffered(codec, p, item)
  {
    if item.Ev? {
      DataLineFields(Printed(codec, item.event));
    }
  }

  /** Reading body line, blank line: the event is dispatched and the buffered id committed. */
  lemma {:induction false} BodyRead(codec: Codec, p: Parser, item: Item)
    requires codec.Valid() && p.line == "" && !p.afterCR && p.data == ""
    ensures var body := BodyLine(codec, item);
            && ReadAll(p, body + "\n" + "\n") == Dispatch(Buffered(codec, p, item))
            && forall k | 0 <= k < |body + "\n" + "\n"| ::
                 ReadAll(p, (body + "\n" + "\n")[..k]).dispatched == p.dispatched
                 && ReadAll(p, (body + "\n" + "\n")[..k]).lastEventId == p.lastEventId
  {
    var body := BodyLine(codec, item);
    var text := body + "\n" + "\n";
    BodyLineProcessed(codec, p, item);
    ReadLine(p, body);
    FoldAppend(Read, p, body + "\n", "\n");
    FoldOne(Read, Buffered(codec, p, item), '\n');
    forall k | 0 <= k < |text|
      ensures ReadAll(p, text[..k]).dispatched == p.dispatched && ReadAll(p, text[..k]).lastEventId == p.lastEventId
    {
      if k <= |body| {
        assert text[..k] == body[..k];
        ReadPlain(p, body[..k]);
      } else {
        assert text[..k] == body + "\n";
      }
    }
  }

  lemma {:induction false} WithIdBuffer(codec: Codec, p: Parser, item: Item)
    requires AtBoundary(p)
    ensures Dispatch(Buffered(codec, p, item)) ==
            p.(lastEventId := p.idBuffer, dispatched := p.dispatched + AllPrinted(codec, EventsIn([item])))
  {
    assert [item][1..] == [];
    if item.Ev? {
      var s := Printed(codec, item.event);
      assert (s + "\n")[..|s + "\n"| - 1] == s;
      assert AllPrinted(codec, EventsIn([item])) == [s];
    } else {
      assert p.dispatched + AllPrinted(codec, EventsIn([item])) == p.dispatched;
    }
  }

  lemma {:induction false} FrameRead(codec: Codec, p: Parser, item: Item)
    requires codec.Valid() && AtBoundary(p)
    ensures ReadAll(p, FrameText(codec, item)) == After(codec, p, [item]) && AtBoundary(After(codec, p, [item]))
    ensures forall k | 0 <= k < |FrameText(codec, item)| ::
              ReadAll(p, FrameText(codec, item)[..k]).dispatched == p.dispatched
              && ReadAll(p, FrameText(codec, item)[..k]).lastEventId == p.lastEventId
  {
    assert [item][1..] == [];
    var text := FrameText(codec, item);
    if CommitsId(item) {
      var line, tail := IdLine(item), BodyLine(codec, item) + "\n" + "\n";
      var q := p.(idBuffer := Dec(item.event.id));
      IdLineFields(item.event.id);
      ReadLine(p, line);
      BodyRead(codec, q, item);
      assert text == (line + "\n") + tail;
      FoldAppend(Read, p, line + "\n", tail);
      WithIdBuffer(codec, q, item);
      assert IdAfter([item], p.idBuffer) == Dec(item.event.id);
      assert ProcessLine(p, line) == q;
      forall k | 0 <= k < |text|
        ensures ReadAll(p, text[..k]).dispatched == p.dispatched && ReadAll(p, text[..k]).lastEventId == p.lastEventId
      {
        if k <= |line| {
          assert text[..k] == line[..k];
          ReadPlain(p, line[..k]);
        } else {
          assert text[..k] == (line + "\n") + tail[..k - |line| - 1];
          FoldAppend(Read, p, line + "\n", tail[..k - |line| - 1]);
        }
      }
    } else {
      BodyRead(codec, p, item);
      WithIdBuffer(codec, p, item);
      assert IdAfter([item], p.idBuffer) == p.idBuffer;
    }
  }

  // ---- A whole stream, cut anywhere ----

  lemma {:induction false} IdAfterAppend(a: seq<Item>, b: seq<Item>, id: string)
    ensures IdAfter(a + b, id) == IdAfter(b, IdAfter(a, id))
  {
    if a == [] {
      assert a + b == b;
    } else {
      assert (a + b)[0] == a[0] && (a + b)[1..] == a[1..] + b;
      IdAfterAppend(a[1..], b, if CommitsId(a[0]) then Dec(a[0].event.id) else id);
    }
  }

  lemma AllPrintedAppend(codec: Codec, a: seq<Item>, b: seq<Item>)
    ensures AllPrinted(codec, EventsIn(a + b)) == AllPrinted(codec, EventsIn(a)) + AllPrinted(codec, EventsIn(b))
  {
    ItemsAppendParts(a, b, 0);
  }

  lemma {:induction false} AfterAppend(codec: Codec, p: Parser, a: seq<Item>, b: seq<Item>)
    requires a != []
    ensures After(codec, After(codec, p, a), b) == After(codec, p, a + b)
  {
    if b == [] {
      assert a + b == a;
      return;
    }
    IdAfterAppend(a, b, p.idBuffer);
    AllPrintedAppend(codec, a, b);
    var x, y := AllPrinted(codec, EventsIn(a)), AllPrinted(codec, EventsIn(b));
    assert p.dispatched + x + y == p.dispatched + (x + y);
  }

  /** How many whole frames the first k characters hold. */
  function WholeFrames(codec: Codec, items: seq<Item>, k: nat): (m: nat)
    ensures m <= |items|
  {
    if items == [] || k < |FrameText(codec, items[0])| then 0
    else 1 + WholeFrames(codec, items[1..], k - |FrameText(codec, items[0])|)
  }

  lemma CutFirstFrame(codec: Codec, p: Parser, items: seq<Item>, k: nat)
    requires codec.Valid() && AtBoundary(p) && items != [] && k < |FrameText(codec, items[0])|
    requires k <= |StreamText(codec, items)|
    ensures var q := ReadAll(p, StreamText(codec, items)[..k]);
            q.dispatched == p.dispatched && q.lastEventId == p.lastEventId
  {
    FrameRead(codec, p, items[0]);
    assert StreamText(codec, items)[..k] == FrameText(codec, items[0])[..k];
  }

  lemma {:induction false} ReadFirstFrame(codec: Codec, p: Parser, items: seq<Item>, k: nat)
    requires codec.Valid() && AtBoundary(p) && items != []
    requires |FrameText(codec, items[0])| <= k <= |StreamText(codec, items)|
    ensures AtBoundary(After(codec, p, [items[0]]))
    ensures ReadAll(p, StreamText(codec, items)[..k])
         == ReadAll(After(codec, p, [items[0]]), StreamText(codec, items[1..])[..k - |FrameText(codec, items[0])|])
  {
    var frame, rest := FrameText(codec, items[0]), StreamText(codec, items[1..]);
    FrameRead(codec, p, items[0]);
    assert StreamText(codec, items)[..k] == frame + rest[..k - |frame|];
    FoldAppend(Read, p, frame, rest[..k - |frame|]);
  }

  lemma {:induction false} AfterFirst(codec: Codec, p: Parser, items: seq<Item>, k: nat)
    requires items != [] && k >= |FrameText(codec, items[0])|
    ensures After(codec, p, items[..WholeFrames(codec, items, k)])
         == After(codec, After(codec, p, [items[0]]),
           items[1..][..WholeFrames(codec, items[1..], k - |FrameText(codec, items[0])|)])
  {
    var m := WholeFrames(codec, items[1..], k - |FrameText(codec, items[0])|);
    AfterAppend(codec, p, [items[0]], items[1..][..m]);
    assert items[..m + 1] == [items[0]] + items[1..][..m];
  }

  lemma {:induction false} CutStreamRead(codec: Codec, p: Parser, items: seq<Item>, k: nat)
    requires codec.Valid() && AtBoundary(p) && k <= |StreamText(codec, items)|
    ensures var q := ReadAll(p, StreamText(codec, items)[..k]);
            var whole := After(codec, p, items[..WholeFrames(codec, items, k)]);
            q.dispatched == whole.dispatched && q.lastEventId == whole.lastEventId
    decreases |items|
  {
    assert p.dispatched + AllPrinted(codec, EventsIn([])) == p.dispatched;
    if items == [] {
      assert StreamText(codec, items)[..k] == "";
    } else if k < |FrameText(codec, items[0])| {
      CutFirstFrame(codec, p, items, k);
    } else {
      ReadFirstFrame(codec, p, items, k);
      CutStreamRead(codec, After(codec, p, [items[0]]), items[1..], k - |FrameText(codec, items[0])|);
      AfterFirst(codec, p, items, k);
    }
  }
}
