/** The passthrough pretty-printer, another chunk-fed line splitter (clients/python/src/aod/pretty/__init__.py). */
module Formatter {
  import opened Prelude
  import opened Json
  import opened Decimal
  import opened Lines
  import opened StreamFormat
  import opened TsClient

  /** `line.rstrip("\r")`. */
  function TrimCR(line: string): (r: string)
    ensures r <= line && forall i | |r| <= i < |line| :: line[i] == '\r'
    ensures r != "" ==> r[|r| - 1] != '\r'
  {
    if line != "" && line[|line| - 1] == '\r' then TrimCR(line[..|line| - 1]) else line
  }

  /** The lines that are shown: without carriage returns at the end, and not empty. */
  function Display(lines: seq<string>): seq<string> {
    Collect(DisplayLine, lines)
  }

  function DisplayLine(line: string): seq<string> {
    if TrimCR(line) == "" then [] else [TrimCR(line)]
  }

  function DisplayTail(tail: string): seq<string> {
    if Strip(TrimCR(tail)) == "" then [] else [TrimCR(tail)]
  }

  /** The one-shot display of a whole text. */
  function DisplayText(text: string): seq<string> {
    Shown(text) + DisplayTail(Rest(text, '\n'))
  }

  /** The text an event contributes: a string of stdout output. */
  function StdoutOf(e: StreamEvent): string {
    if e.kind == "output" && "stream" in e.extra && e.extra["stream"] == JStr("stdout")
       && "data" in e.extra && e.extra["data"].JStr?
    then e.extra["data"].s else ""
  }

  function StdoutText(events: seq<StreamEvent>): string {
    Collect(StdoutOf, events)
  }

  /** What a text fed so far shows. */
  function Shown(text: string): seq<string> {
    Display(Complete(text, '\n'))
  }

  lemma Buffered(fed: string, chunk: string)
    ensures Shown(fed + chunk) == Shown(fed) + Shown(Rest(fed, '\n') + chunk)
    ensures Rest(fed + chunk, '\n') == Rest(Rest(fed, '\n') + chunk, '\n')
  {
    SplitInPieces(fed, chunk, '\n');
    CollectAppend(DisplayLine, Complete(fed, '\n'), Complete(Rest(fed, '\n') + chunk, '\n'));
  }

  lemma {:induction false} FirstShown(before: seq<string>, text: string, k: nat)
    requires k == IndexOf(text, '\n') < |text|
    ensures before + Shown(text) == before + DisplayLine(text[..k]) + Shown(text[k + 1..])
    ensures Rest(text, '\n') == Rest(text[k + 1..], '\n')
  {
    FirstComplete(text, '\n');
    Associative(before, DisplayLine(text[..k]), Shown(text[k + 1..]));
  }

  method TakeLines(start: string) returns (lines: seq<string>, buf: string)
    ensures lines == Shown(start) && buf == Rest(start, '\n')
  {
    buf, lines := start, [];
    var k := IndexOf(buf, '\n');
    while k < |buf|
      invariant k == IndexOf(buf, '\n')
      invariant Rest(start, '\n') == Rest(buf, '\n') && Shown(start) == lines + Shown(buf)
      decreases |buf|
    {
      FirstShown(lines, buf, k);
      var line := TrimCR(buf[..k]);
      buf := buf[k + 1..];
      if line != "" {
        lines := lines + [line];
      }
      k := IndexOf(buf, '\n');
    }
  }

  class GenericFormatter {
    var buf: string
    /** Everything fed since the last flush. */
    ghost var fed: string

    constructor ()
      ensures Valid() && fed == ""
    {
      buf, fed := "", "";
      new;
      SplitNone("", '\n');
    }

    ghost predicate Valid()
      reads this
    {
      buf == Rest(fed, '\n')
    }

    method Feed(chunk: string) returns (lines: seq<string>)
      requires Valid()
      modifies this
      ensures Valid() && fed == old(fed) + chunk
      ensures Shown(fed) == Shown(old(fed)) + lines
    {
      Buffered(fed, chunk);
      fed := fed + chunk;
      lines, buf := TakeLines(buf + chunk);
    }

    method Flush() returns (lines: seq<string>)
      requires Valid()
      modifies this
      ensures Valid() && fed == ""
      ensures DisplayText(old(fed)) == Shown(old(fed)) + lines
    {
      var tail := TrimCR(buf);
      lines := [];
      if Strip(tail) != "" {
        lines := [tail];
      }
      buf, fed := "", "";
      SplitNone("", '\n');
    }

    method Consume(event: StreamEvent) returns (lines: seq<string>)
      requires Valid()
      modifies this
      ensures Valid() && fed == old(fed) + StdoutOf(event)
      ensures Shown(fed) == Shown(old(fed)) + lines
    {
      if event.kind != "output" {
        return [];
      }
      if !("stream" in event.extra && event.extra["stream"] == JStr("stdout")) {
        return [];
      }
      if !("data" in event.extra && event.extra["data"].JStr?) {
        return [];
      }
      lines := Feed(event.extra["data"].s);
    }
  }

  method ConsumeAll(formatter: GenericFormatter, events: seq<StreamEvent>) returns (lines: seq<string>)
    requires formatter.Valid() && formatter.fed == ""
    modifies formatter
    ensures formatter.Valid() && formatter.fed == StdoutText(events)
    ensures lines == Shown(formatter.fed)
  {
    lines := [];
    SplitNone("", '\n');
    for i := 0 to |events|
      invariant formatter.Valid() && lines == Shown(formatter.fed)
      invariant formatter.fed == StdoutText(events[..i])
    {
      StdoutTextGrows(events, i);
      var more := formatter.Consume(events[i]);
      lines := lines + more;
    }
    assert events[..|events|] == events;
  }

  lemma StdoutTextGrows(events: seq<StreamEvent>, i: nat)
    requires i < |events|
    ensures StdoutText(events[..i + 1]) == StdoutText(events[..i]) + StdoutOf(events[i])
  {
    assert events[..i + 1] == events[..i] + [events[i]];
    CollectAppend(StdoutOf, events[..i], [events[i]]);
    CollectOne(StdoutOf, events[i]);
  }

  /** Consuming all of a stream and flushing shows what its stdout shows when displayed whole. */
  method ShowStream(events: seq<StreamEvent>) returns (lines: seq<string>)
    ensures lines == DisplayText(StdoutText(events))
  {
    var formatter := new GenericFormatter();
    lines := ConsumeAll(formatter, events);
    var last := formatter.Flush();
    lines := lines + last;
  }

  // ---- On the server's events ----

  function StdoutOfRow(row: LogRow): string {
    if row.kind == OutputKind && row.stream == "stdout" then row.data else ""
  }

  function StdoutOfRows(rows: seq<LogRow>): string {
    Collect(StdoutOfRow, rows)
  }

  lemma StdoutOfEvent(e: Event)
    ensures StdoutOf(ToStreamEvent(e)) == if e.Output? && e.stream == "stdout" then e.data else ""
  {
    assert "stage"[0] == 's' && "start"[0] == 's' && "turn_start"[0] == 't' && "exit"[1] == 'x';
    assert "error"[0] == 'e' && "terminated"[0] == 't' && "stale"[0] == 's' && "output"[0] == 'o' && "stream"[0] == 's'
           && "data"[0] == 'd' && "turn"[0] == 't';
    assert "stream"[2] == 'r';
  }

  lemma {:induction false} StdoutOfRowEvents(row: LogRow, lastTurn: Option<nat>)
    ensures StdoutText(ToStreamEvents(EventsOf(row, lastTurn))) == StdoutOfRow(row)
  {
    var events := EventsOf(row, lastTurn);
    var s := ToStreamEvents(events);
    var last := ToStreamEvent(RowEvent(row));
    StdoutOfEvent(RowEvent(row));
    CollectOne(StdoutOf, last);
    if OpensTurn(row, lastTurn) {
      StdoutOfEvent(events[0]);
      assert s == [ToStreamEvent(events[0]), last] && s[1..] == [last];
    } else {
      assert s == [last];
    }
  }

  lemma {:induction false} StdoutAppend(a: seq<Event>, b: seq<Event>)
    ensures StdoutText(ToStreamEvents(a + b)) == StdoutText(ToStreamEvents(a)) + StdoutText(ToStreamEvents(b))
  {
    assert ToStreamEvents(a + b) == ToStreamEvents(a) + ToStreamEvents(b);
    CollectAppend(StdoutOf, ToStreamEvents(a), ToStreamEvents(b));
  }

  /**
   What a reader is shown depends on the text of the stdout rows alone: not on
   how it was cut into rows, nor on turn starts.
   */
  lemma {:induction false} ShownTextIsStdout(rows: seq<LogRow>, lastTurn: Option<nat>)
    ensures StdoutText(ToStreamEvents(FormatRows(rows, lastTurn))) == StdoutOfRows(rows)
  {
    if rows != [] {
      var first, rest := EventsOf(rows[0], lastTurn), FormatRows(rows[1..], TurnAfter(rows[0], lastTurn));
      StdoutAppend(first, rest);
      StdoutOfRowEvents(rows[0], lastTurn);
      ShownTextIsStdout(rows[1..], TurnAfter(rows[0], lastTurn));
    }
  }

  function CarriageReturns(n: nat): string {
    seq(n, i requires 0 <= i < n => '\r')
  }

  /** Each line with so many carriage counts behind it. */
  function WithReturns(lines: seq<string>, counts: seq<nat>): seq<string>
    requires |counts| == |lines|
  {
    seq(|lines|, i requires 0 <= i < |lines| => lines[i] + CarriageReturns(counts[i]))
  }

  function NonEmpty(lines: seq<string>): seq<string> {
    if lines == [] then [] else (if lines[0] == "" then [] else [lines[0]]) + NonEmpty(lines[1..])
  }

  /** A line that has text: it has one, and does not end in a carriage return or hold a newline. */
  predicate PlainLine(line: string) {
    '\n' !in line && (line != "" ==> line[|line| - 1] != '\r')
  }

  /** Lines written out are shown as they are, however many carriage counts end them; empty ones are not shown. */
  lemma {:induction false} WrittenLinesAreShown(lines: seq<string>, counts: seq<nat>)
    requires |counts| == |lines| && forall line | line in lines :: PlainLine(line)
    ensures DisplayText(Terminated(WithReturns(lines, counts), '\n')) == NonEmpty(lines)
  {
    var written := WithReturns(lines, counts);
    forall line | line in written ensures '\n' !in line {
      var i :| 0 <= i < |written| && written[i] == line;
      assert lines[i] in lines;
    }
    AllTerminated(written, '\n');
    DisplayIsNonEmpty(lines, counts);
    assert TrimCR("") == "" && Strip("") == "";
  }

  lemma {:induction false} ReturnsAreTrimmed(line: string, n: nat)
    requires PlainLine(line)
    ensures TrimCR(line + CarriageReturns(n)) == line
  {
    var s := line + CarriageReturns(n);
    assert forall i | |line| <= i < |s| :: s[i] == '\r';
    assert line != "" ==> s[|line| - 1] == line[|line| - 1];
  }

  lemma {:induction false} DisplayIsNonEmpty(lines: seq<string>, counts: seq<nat>)
    requires |counts| == |lines| && forall line | line in lines :: PlainLine(line)
    ensures Display(WithReturns(lines, counts)) == NonEmpty(lines)
    decreases |lines|
  {
    if lines != [] {
      assert lines[0] in lines;
      ReturnsAreTrimmed(lines[0], counts[0]);
      assert WithReturns(lines, counts)[1..] == WithReturns(lines[1..], counts[1..]);
      DisplayIsNonEmpty(lines[1..], counts[1..]);
    }
  }

  /** The last line, without a newline, is shown unless it is all spaces, and without its carriage counts. */
  lemma {:induction false} TailIsShownIff(line: string, n: nat)
    requires PlainLine(line)
    ensures DisplayText(line + CarriageReturns(n)) == if AllSpace(line) then [] else [line]
  {
    var tail := line + CarriageReturns(n);
    SplitNone(tail, '\n');
    ReturnsAreTrimmed(line, n);
    SpaceStripsToNothing(line);
  }
}
