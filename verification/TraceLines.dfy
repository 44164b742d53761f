/** Which lines of a turn's stdout reach the trace, and what the trace is on good ones. */
module TraceLines {
  import opened Prelude
  import opened Json
  import opened Lines
  import opened Trace

  /** A line the emitter has no use for: blank, no JSON, no object, or one its runtime's adapter raises on. */
  predicate Useless(parse: LineParser, adapter: Adapter, line: Bytes) {
    || (forall i | 0 <= i < |line| :: line[i] == 32 || 9 <= line[i] <= 13)
    || parse(line).None? || !parse(line).value.JObj? || adapter(parse(line).value.fields).None?
  }

  /** A line that is an object the adapter reads as these actions. */
  predicate ReadsAs(parse: LineParser, adapter: Adapter, line: Bytes, actions: seq<TraceAction>) {
    && (exists i | 0 <= i < |line| :: !(line[i] == 32 || 9 <= line[i] <= 13))
    && parse(line).Some? && parse(line).value.JObj?
    && adapter(parse(line).value.fields) == Some(actions)
  }

  lemma {:induction false} UselessHasNoActions(parse: LineParser, adapter: Adapter, line: Bytes)
    requires Useless(parse, adapter, line)
    ensures ActionsOf(parse, adapter, line) == []
  {
  }

  lemma {:induction false} UsefulHasItsActions(
    parse: LineParser, adapter: Adapter, line: Bytes, actions: seq<TraceAction>)
    requires ReadsAs(parse, adapter, line, actions)
    ensures ActionsOf(parse, adapter, line) == actions
  {
  }

  lemma {:induction false} LinesAround(before: Bytes, line: Bytes, after: Bytes)
    requires NEWLINE !in line && Rest(before, NEWLINE) == []
    ensures Complete(before + (line + [NEWLINE] + after), NEWLINE)
         == Complete(before, NEWLINE) + ([line] + Complete(after, NEWLINE))
    ensures Complete(before + after, NEWLINE) == Complete(before, NEWLINE) + Complete(after, NEWLINE)
  {
    SplitInPieces(before, line + [NEWLINE] + after, NEWLINE);
    SplitInPieces(before, after, NEWLINE);
    CompleteAfterLine(line, NEWLINE, after);
    assert [] + (line + [NEWLINE] + after) == line + [NEWLINE] + after && [] + after == after;
  }

  /** Such a line may stand anywhere among the others: the trace is the same without it. */
  lemma {:induction false} UselessLinesChangeNothing(
    parse: LineParser, adapter: Adapter, before: Bytes, line: Bytes, after: Bytes)
    requires NEWLINE !in line && Rest(before, NEWLINE) == [] && Useless(parse, adapter, line)
    ensures TraceOf(parse, adapter, before + (line + [NEWLINE] + after)) == TraceOf(parse, adapter, before + after)
  {
    var read := LineReader(parse, adapter);
    var first, rest := Complete(before, NEWLINE), Complete(after, NEWLINE);
    LinesAround(before, line, after);
    UselessHasNoActions(parse, adapter, line);
    CollectAppend(read, first, [line] + rest);
    CollectAppend(read, [line], rest);
    CollectOne(read, line);
    CollectAppend(read, first, rest);
    assert [] + Collect(read, rest) == Collect(read, rest);
  }

  /** On lines that are all useful the trace is that of their actions, line after line. */
  lemma {:induction false} UsefulLinesAreTraced(
    parse: LineParser, adapter: Adapter, lines: seq<Bytes>, actions: seq<seq<TraceAction>>)
    requires |actions| == |lines|
    requires forall i | 0 <= i < |lines| :: NEWLINE !in lines[i] && ReadsAs(parse, adapter, lines[i], actions[i])
    ensures TraceOf(parse, adapter, Terminated(lines, NEWLINE))
         == Abandon(ApplyAll(NO_SPANS, Flatten(actions))).effects
  {
    AllTerminated(lines, NEWLINE);
    ActionsInOrder(parse, adapter, lines, actions);
  }

  lemma {:induction false} ActionsInOrder(
    parse: LineParser, adapter: Adapter, lines: seq<Bytes>, actions: seq<seq<TraceAction>>)
    requires |actions| == |lines|
    requires forall i | 0 <= i < |lines| :: ReadsAs(parse, adapter, lines[i], actions[i])
    ensures ActionsOfLines(parse, adapter, lines) == Flatten(actions)
    decreases |lines|
  {
    if lines != [] {
      UsefulHasItsActions(parse, adapter, lines[0], actions[0]);
      ActionsInOrder(parse, adapter, lines[1..], actions[1..]);
    }
  }
}
