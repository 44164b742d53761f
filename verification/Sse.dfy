/**
 A client that follows WHATWG HTML section 9.2.6 ("Interpreting an event
 stream"), one character at a time. The section starts a stream's buffers
 empty; a seeded reader starts the last event ID buffer from the event
 source's last event ID string instead.
 */
module Sse {
  import opened Prelude
  import opened Json

  datatype Parser = Parser(
    line: string,
    afterCR: bool,
    data: string,
    idBuffer: string,
    lastEventId: string,
    dispatched: seq<string>)

  datatype Reader = Standard | Seeded

  /** The reader at the start of a connection. */
  function Opened(reader: Reader, lastEventId: string): Parser {
    Parser("", false, "", if reader == Seeded then lastEventId else "", lastEventId, [])
  }

  function ColonAt(line: string): nat {
    if line == "" || line[0] == ':' then 0 else 1 + ColonAt(line[1..])
  }

  function FieldName(line: string): string {
    var k := ColonAt(line);
    if k < |line| then line[..k] else line
  }

  function FieldValue(line: string): string {
    var k := ColonAt(line);
    if k >= |line| then ""
    else if k + 1 < |line| && line[k + 1] == ' ' then line[k + 2..]
    else line[k + 1..]
  }

  function Dispatch(p: Parser): Parser {
    var q := p.(lastEventId := p.idBuffer);
    if p.data == "" then q
    else q.(dispatched := p.dispatched + [p.data[..|p.data| - 1]], data := "")
  }

  function ProcessLine(p: Parser, line: string): Parser {
    if line == "" then Dispatch(p)
    else if line[0] == ':' then p
    else
      match FieldName(line)
      case "data" => p.(data := p.data + FieldValue(line) + "\n")
      case "id" => if '\0' in FieldValue(line) then p else p.(idBuffer := FieldValue(line))
      case _ => p
  }

  function Read(p: Parser, c: char): Parser {
    if c == '\n' then
      if p.afterCR then p.(afterCR := false) else ProcessLine(p.(line := ""), p.line)
    else if c == '\r' then ProcessLine(p.(line := "", afterCR := true), p.line)
    else p.(line := p.line + [c], afterCR := false)
  }

  function ReadAll(p: Parser, text: string): Parser {
    Fold(Read, p, text)
  }

  lemma {:induction false} ReadPlain(p: Parser, s: string)
    requires OneLine(s) && !p.afterCR
    ensures ReadAll(p, s) == p.(line := p.line + s)
    decreases |s|
  {
    if s == "" {
      assert p.line + s == p.line;
    } else {
      ReadPlain(Read(p, s[0]), s[1..]);
      assert p.line + [s[0]] + s[1..] == p.line + s;
    }
  }

  lemma {:induction false} ReadLine(p: Parser, s: string)
    requires OneLine(s) && !p.afterCR && p.line == ""
    ensures ReadAll(p, s + "\n") == ProcessLine(p, s)
  {
    FoldAppend(Read, p, s, "\n");
    ReadPlain(p, s);
    var q := ReadAll(p, s);
    assert p.line + s == s;
    assert ReadAll(q, ['\n']) == Read(q, '\n') by {
      FoldOne(Read, q, '\n');
    }
    assert q.(line := "") == p;
  }
}
