/** The bridge from a runtime's stdout to spans (session_service/runtime_trace.py). */
module Trace {
  import opened Prelude
  import opened Json
  import opened Lines

  type Bytes = seq<bv8>

  const NEWLINE: bv8 := 10

  type Attrs = map<string, Option<Json>>

  datatype TraceAction =
    | AddEvent(name: string, attrs: Attrs)
    | ToolStart(toolId: string, spanName: string, attrs: Attrs)
    | ToolEnd(toolId: string, attrs: Attrs)

  /** How a span ended: by its tool's result, or by `finish`. */
  datatype Ending = Matched | Abandoned

  /** What the tracer is told; spans are numbered in the order they start. */
  datatype Effect =
    | ParentEvent(name: string, attrs: map<string, Json>)
    | SpanStarted(span: nat, toolId: string, name: string, attrs: map<string, Json>)
    | SpanEnded(span: nat, toolId: string, ending: Ending, attrs: map<string, Json>)

  /** The runtime's reading of one object, or None when it raises. */
  type Adapter = map<string, Json> -> Option<seq<TraceAction>>

  /** `json.loads` of a line; None for the two errors that are caught. */
  type LineParser = Bytes -> Option<Json>

  datatype OpenSpan = OpenSpan(toolId: string, span: nat)

  /** The table of open spans, in insertion order, and what has been told to the tracer. */
  datatype Spans = Spans(table: seq<OpenSpan>, effects: seq<Effect>, started: nat)

  const NO_SPANS := Spans([], [], 0)

  // ---- Lines and actions ----

  function CleanAttrs(attrs: Attrs): (r: map<string, Json>)
    ensures forall k :: k in r <==> k in attrs && attrs[k].Some?
    ensures forall k | k in r :: attrs[k] == Some(r[k])
  {
    map k | k in attrs && attrs[k].Some? :: attrs[k].value
  }

  predicate BlankByte(b: bv8) {
    b == 32 || 9 <= b <= 13
  }

  predicate Blank(line: Bytes) {
    forall i | 0 <= i < |line| :: BlankByte(line[i])
  }

  function ActionsOf(parse: LineParser, adapter: Adapter, line: Bytes): seq<TraceAction> {
    if Blank(line) then []
    else
      match parse(line)
      case None => []
      case Some(j) =>
        if !j.JObj? then []
        else
          var actions := adapter(j.fields);
          if actions.None? then [] else actions.value
  }

  function ActionsOfLines(parse: LineParser, adapter: Adapter, lines: seq<Bytes>): seq<TraceAction> {
    Collect(LineReader(parse, adapter), lines)
  }

  function LineReader(parse: LineParser, adapter: Adapter): Bytes -> seq<TraceAction> {
    (line: Bytes) => ActionsOf(parse, adapter, line)
  }

  // ---- The span table ----

  function Find(table: seq<OpenSpan>, toolId: string): (k: nat)
    ensures k <= |table|
    ensures k < |table| ==> table[k].toolId == toolId
    ensures forall i | 0 <= i < k :: table[i].toolId != toolId
  {
    if table == [] || table[0].toolId == toolId then 0 else 1 + Find(table[1..], toolId)
  }

  function Apply(s: Spans, a: TraceAction): Spans {
    match a
    case AddEvent(name, attrs) => s.(effects := s.effects + [ParentEvent(name, CleanAttrs(attrs))])
    case ToolStart(toolId, name, attrs) =>
      if toolId == "" || Find(s.table, toolId) < |s.table| then s
      else
        Spans(s.table + [OpenSpan(toolId, s.started)],
              s.effects + [SpanStarted(s.started, toolId, name, CleanAttrs(attrs))],
              s.started + 1)
    case ToolEnd(toolId, attrs) =>
      var k := Find(s.table, toolId);
      if k == |s.table| then s
      else
        s.(table := s.table[..k] + s.table[k + 1..],
           effects := s.effects + [SpanEnded(s.table[k].span, toolId, Matched, CleanAttrs(attrs))])
  }

  function ApplyAll(s: Spans, actions: seq<TraceAction>): Spans {
    Fold(Apply, s, actions)
  }

  lemma ApplyAllAppend(s: Spans, a: seq<TraceAction>, b: seq<TraceAction>)
    ensures ApplyAll(s, a + b) == ApplyAll(ApplyAll(s, a), b)
  {
    FoldAppend(Apply, s, a, b);
  }

  lemma ApplyAllOne(s: Spans, a: TraceAction)
    ensures ApplyAll(s, [a]) == Apply(s, a)
  {
    FoldOne(Apply, s, a);
  }

  /** The complete lines of a text, handled one after another. */
  function AfterLines(parse: LineParser, adapter: Adapter, s: Spans, text: Bytes): Spans {
    ApplyAll(s, ActionsOfLines(parse, adapter, Complete(text, NEWLINE)))
  }

  /** `finish`: what is still open is abandoned, in insertion order. */
  function Abandon(s: Spans): Spans
    decreases |s.table|
  {
    if s.table == [] then s else Abandon(AbandonFirst(s))
  }

  function AbandonFirst(s: Spans): Spans
    requires s.table != []
  {
    s.(table := s.table[1..],
       effects := s.effects + [SpanEnded(s.table[0].span, s.table[0].toolId, Abandoned, map[])])
  }

  // ---- Bracketing, read off the effects alone ----

  /** The span open under a tool id after these effects. */
  function OpenUnder(effects: seq<Effect>, toolId: string): Option<nat> {
    if effects == [] then None
    else
      var n := |effects| - 1;
      match effects[n]
      case SpanStarted(span, id, _, _) => if id == toolId then Some(span) else OpenUnder(effects[..n], toolId)
      case SpanEnded(_, id, _, _) => if id == toolId then None else OpenUnder(effects[..n], toolId)
      case ParentEvent(_, _) => OpenUnder(effects[..n], toolId)
  }

  function Starts(effects: seq<Effect>): nat {
    if effects == [] then 0
    else Starts(effects[..|effects| - 1]) + (if effects[|effects| - 1].SpanStarted? then 1 else 0)
  }

  function Ends(effects: seq<Effect>, span: nat): nat {
    if effects == [] then 0
    else
      var last := effects[|effects| - 1];
      Ends(effects[..|effects| - 1], span) + (if last.SpanEnded? && last.span == span then 1 else 0)
  }

  /**
   Every start opens a tool id that is not open, with the next span; every end
   ends the span that is open under its tool id.
   */
  predicate WellBracketed(effects: seq<Effect>) {
    effects != [] ==>
      var n := |effects| - 1;
      && WellBracketed(effects[..n])
      && match effects[n]
         case SpanStarted(span, id, _, _) => span == Starts(effects[..n]) && OpenUnder(effects[..n], id) == None
         case SpanEnded(span, id, _, _) => OpenUnder(effects[..n], id) == Some(span)
         case ParentEvent(_, _) => true
  }

  /** The tool a span was started for. */
  function ToolOf(effects: seq<Effect>, span: nat): string {
    if effects == [] then ""
    else
      var last := effects[|effects| - 1];
      if last.SpanStarted? && last.span == span then last.toolId else ToolOf(effects[..|effects| - 1], span)
  }

  /** In bracketed effects a span is open under its own tool, and was ended once unless it is still open. */
  ghost predicate EndedOnceUnlessOpen(effects: seq<Effect>) {
    && (forall span: nat | span < Starts(effects) ::
          Ends(effects, span) == if OpenUnder(effects, ToolOf(effects, span)) == Some(span) then 0 else 1)
    && (forall span: nat | span >= Starts(effects) :: Ends(effects, span) == 0)
    && (forall id | OpenUnder(effects, id).Some? ::
          OpenUnder(effects, id).value < Starts(effects) && ToolOf(effects, OpenUnder(effects, id).value) == id)
  }

  lemma {:induction false} BracketedEndsOnce(effects: seq<Effect>)
    requires WellBracketed(effects)
    ensures EndedOnceUnlessOpen(effects)
  {
    if effects != [] {
      var before, last := effects[..|effects| - 1], effects[|effects| - 1];
      BracketedEndsOnce(before);
      forall span: nat | span < Starts(effects)
        ensures Ends(effects, span) == if OpenUnder(effects, ToolOf(effects, span)) == Some(span) then 0 else 1
      {
        if last.SpanEnded? && last.span == span {
          assert OpenUnder(before, last.toolId) == Some(span);
        }
      }
      forall id | OpenUnder(effects, id).Some?
        ensures OpenUnder(effects, id).value < Starts(effects) && ToolOf(effects, OpenUnder(effects, id).value) == id
      {
        if last.SpanStarted? && last.toolId == id {
          assert ToolOf(effects, last.span) == id;
        } else {
          assert OpenUnder(before, id) == OpenUnder(effects, id);
        }
      }
    }
  }

  // ---- The table agrees with the effects ----

  ghost predicate InTable(table: seq<OpenSpan>, toolId: string, span: Option<nat>) {
    var k := Find(table, toolId);
    if k < |table| then span == Some(table[k].span) else span == None
  }

  /**
   At most one open span per tool id, oldest first, and the table holds exactly
   the spans that started and have not ended.
   */
  ghost predicate Agrees(s: Spans) {
    && WellBracketed(s.effects) && s.started == Starts(s.effects)
    && Ordered(s.table)
    && (forall i | 0 <= i < |s.table| :: s.table[i].span < s.started && s.table[i].toolId != "")
    && (forall id :: InTable(s.table, id, OpenUnder(s.effects, id)))
  }

  lemma EffectAdded(effects: seq<Effect>, e: Effect)
    ensures (effects + [e])[..|effects + [e]| - 1] == effects && (effects + [e])[|effects + [e]| - 1] == e
  {
  }

  lemma {:induction false} FindUnique(table: seq<OpenSpan>, toolId: string, k: nat)
    requires k <= |table| && (k < |table| ==> table[k].toolId == toolId)
    requires forall i | 0 <= i < k :: table[i].toolId != toolId
    ensures Find(table, toolId) == k
  {
  }

  lemma {:induction false} FoundBefore(table: seq<OpenSpan>, item: OpenSpan, id: string)
    requires id != item.toolId
    ensures var k := Find(table, id); Find(table + [item], id) == if k < |table| then k else k + 1
  {
    var k := Find(table, id);
    FindUnique(table + [item], id, if k < |table| then k else k + 1);
  }

  lemma {:induction false} FoundLast(table: seq<OpenSpan>, item: OpenSpan)
    requires Find(table, item.toolId) == |table|
    ensures Find(table + [item], item.toolId) == |table|
  {
    FindUnique(table + [item], item.toolId, |table|);
  }

  /** What one more effect leaves open. */
  lemma {:induction false} OpenAfter(effects: seq<Effect>, e: Effect, id: string)
    ensures OpenUnder(effects + [e], id) ==
            match e
            case SpanStarted(span, tool, _, _) => if tool == id then Some(span) else OpenUnder(effects, id)
            case SpanEnded(_, tool, _, _) => if tool == id then None else OpenUnder(effects, id)
            case ParentEvent(_, _) => OpenUnder(effects, id)
  {
    EffectAdded(effects, e);
  }

  lemma {:induction false} EventAgrees(s: Spans, a: TraceAction)
    requires Agrees(s) && a.AddEvent?
    ensures Agrees(Apply(s, a))
  {
    var e := ParentEvent(a.name, CleanAttrs(a.attrs));
    EffectAdded(s.effects, e);
    forall id ensures InTable(s.table, id, OpenUnder(s.effects + [e], id)) {
      assert InTable(s.table, id, OpenUnder(s.effects, id));
      OpenAfter(s.effects, e, id);
    }
  }

  /** A new entry for a tool id that had none. */
  lemma {:induction false} EntryAdded(table: seq<OpenSpan>, effects: seq<Effect>, item: OpenSpan, e: Effect, id: string)
    requires Find(table, item.toolId) == |table| && InTable(table, id, OpenUnder(effects, id))
    requires e.SpanStarted? && e.span == item.span && e.toolId == item.toolId
    ensures InTable(table + [item], id, OpenUnder(effects + [e], id))
  {
    OpenAfter(effects, e, id);
    if id == item.toolId {
      FoundLast(table, item);
    } else {
      FoundBefore(table, item, id);
    }
  }

  lemma {:induction false} StartAgrees(s: Spans, a: TraceAction)
    requires Agrees(s) && a.ToolStart? && Apply(s, a) != s
    ensures Agrees(Apply(s, a))
  {
    var item := OpenSpan(a.toolId, s.started);
    var e := SpanStarted(s.started, a.toolId, a.spanName, CleanAttrs(a.attrs));
    EffectAdded(s.effects, e);
    assert InTable(s.table, a.toolId, OpenUnder(s.effects, a.toolId));
    forall id ensures InTable(s.table + [item], id, OpenUnder(s.effects + [e], id)) {
      EntryAdded(s.table, s.effects, item, e, id);
    }
  }

  /** Entry k is gone, and its span has ended. */
  lemma {:induction false} EntryRemoved(table: seq<OpenSpan>, effects: seq<Effect>, k: nat, e: Effect, id: string)
    requires Ordered(table) && k < |table| && InTable(table, id, OpenUnder(effects, id))
    requires e.SpanEnded? && e.toolId == table[k].toolId
    ensures InTable(table[..k] + table[k + 1..], id, OpenUnder(effects + [e], id))
  {
    OpenAfter(effects, e, id);
    WithoutEntry(table, k);
    FindUnique(table, table[k].toolId, k);
  }

  /** Taking entry k out of the table and ending its span. */
  lemma {:induction false} EndAgrees(s: Spans, k: nat, table: seq<OpenSpan>, e: Effect)
    requires Agrees(s) && k < |s.table| && table == s.table[..k] + s.table[k + 1..]
    requires e.SpanEnded? && e.span == s.table[k].span && e.toolId == s.table[k].toolId
    ensures Agrees(Spans(table, s.effects + [e], s.started))
  {
    EffectAdded(s.effects, e);
    FindUnique(s.table, e.toolId, k);
    assert InTable(s.table, e.toolId, OpenUnder(s.effects, e.toolId));
    OthersStay(s.table, k);
    forall id ensures InTable(table, id, OpenUnder(s.effects + [e], id)) {
      EntryRemoved(s.table, s.effects, k, e, id);
    }
  }

  lemma {:induction false} OthersStay(table: seq<OpenSpan>, k: nat)
    requires Ordered(table) && k < |table|
    ensures var rest := table[..k] + table[k + 1..];
            Ordered(rest) && forall i | 0 <= i < |rest| :: rest[i] in table
  {
    WithoutEntry(table, k);
  }

  ghost predicate Ordered(table: seq<OpenSpan>) {
    forall i, j | 0 <= i < j < |table| :: table[i].toolId != table[j].toolId && table[i].span < table[j].span
  }

  lemma {:induction false} OthersKeepOrder(table: seq<OpenSpan>, k: nat)
    requires Ordered(table) && k < |table|
    ensures var rest := table[..k] + table[k + 1..];
            && Ordered(rest)
            && forall i | 0 <= i < |rest| :: rest[i] == table[if i < k then i else i + 1]
  {
    var rest := table[..k] + table[k + 1..];
    forall i | 0 <= i < |rest| ensures rest[i] == table[if i < k then i else i + 1] {
    }
  }

  /** Taking out an entry keeps the others, in order, each found under its tool id. */
  lemma {:induction false} WithoutEntry(table: seq<OpenSpan>, k: nat)
    requires Ordered(table) && k < |table|
    ensures var rest := table[..k] + table[k + 1..];
            && Ordered(rest) && (forall i | 0 <= i < |rest| :: rest[i] in table)
            && forall id ::
                 var j := Find(table, id);
                 Find(rest, id) == (if j < k then j else if j == k then |rest| else j - 1)
  {
    var rest := table[..k] + table[k + 1..];
    OthersKeepOrder(table, k);
    forall id
      ensures var j := Find(table, id);
              Find(rest, id) == (if j < k then j else if j == k then |rest| else j - 1)
    {
      var j := Find(table, id);
      FindUnique(rest, id, if j < k then j else if j == k then |rest| else j - 1);
    }
  }

  lemma {:induction false} ToolEndAgrees(s: Spans, a: TraceAction)
    requires Agrees(s) && a.ToolEnd?
    ensures Agrees(Apply(s, a))
  {
    var k := Find(s.table, a.toolId);
    if k < |s.table| {
      var e := SpanEnded(s.table[k].span, a.toolId, Matched, CleanAttrs(a.attrs));
      EndAgrees(s, k, s.table[..k] + s.table[k + 1..], e);
    }
  }

  lemma {:induction false} ApplyAgrees(s: Spans, a: TraceAction)
    requires Agrees(s)
    ensures Agrees(Apply(s, a))
  {
    if a.AddEvent? {
      EventAgrees(s, a);
    } else if a.ToolEnd? {
      ToolEndAgrees(s, a);
    } else if Apply(s, a) != s {
      StartAgrees(s, a);
    }
  }

  lemma NothingAgrees()
    ensures Agrees(NO_SPANS)
  {
  }

  lemma {:induction false} ApplyAllAgrees(s: Spans, actions: seq<TraceAction>)
    requires Agrees(s)
    ensures Agrees(ApplyAll(s, actions))
    decreases |actions|
  {
    if actions != [] {
      ApplyAgrees(s, actions[0]);
      ApplyAllAgrees(Apply(s, actions[0]), actions[1..]);
    }
  }

  lemma {:induction false} AbandonAgrees(s: Spans)
    requires Agrees(s)
    ensures Agrees(Abandon(s)) && Abandon(s).table == [] && Abandon(s).started == s.started
    ensures Starts(Abandon(s).effects) == Starts(s.effects)
    decreases |s.table|
  {
    if s.table != [] {
      AbandonFirstAgrees(s);
      AbandonFirstStarts(s);
      AbandonAgrees(AbandonFirst(s));
    }
  }

  lemma {:induction false} AbandonFirstAgrees(s: Spans)
    requires Agrees(s) && s.table != []
    ensures Agrees(AbandonFirst(s))
  {
    assert s.table[..0] + s.table[1..] == s.table[1..];
    EndAgrees(s, 0, s.table[1..], SpanEnded(s.table[0].span, s.table[0].toolId, Abandoned, map[]));
  }

  lemma {:induction false} AbandonFirstStarts(s: Spans)
    requires s.table != []
    ensures Starts(AbandonFirst(s).effects) == Starts(s.effects)
  {
    EffectAdded(s.effects, SpanEnded(s.table[0].span, s.table[0].toolId, Abandoned, map[]));
  }

  /** `finish` ends what is open, oldest first, each as abandoned and with no attributes of its own. */
  lemma {:induction false} FinishAbandons(s: Spans)
    ensures Abandon(s).effects == s.effects +
            seq(|s.table|, i requires 0 <= i < |s.table| =>
                  SpanEnded(s.table[i].span, s.table[i].toolId, Abandoned, map[]))
    decreases |s.table|
  {
    if s.table != [] {
      FinishAbandons(AbandonFirst(s));
    }
  }

  // ---- The same actions without a table ----

  /**
   What an action adds, told from the effects so far alone: a start if its tool
   id is not open, an end of the span that is.
   */
  function Told(effects: seq<Effect>, a: TraceAction): seq<Effect> {
    match a
    case AddEvent(name, attrs) => effects + [ParentEvent(name, CleanAttrs(attrs))]
    case ToolStart(toolId, name, attrs) =>
      if toolId == "" || OpenUnder(effects, toolId).Some? then effects
      else effects + [SpanStarted(Starts(effects), toolId, name, CleanAttrs(attrs))]
    case ToolEnd(toolId, attrs) =>
      var span := OpenUnder(effects, toolId);
      if span.None? then effects else effects + [SpanEnded(span.value, toolId, Matched, CleanAttrs(attrs))]
  }

  lemma {:induction false} ApplyTells(s: Spans, a: TraceAction)
    requires Agrees(s)
    ensures Apply(s, a).effects == Told(s.effects, a)
  {
    if !a.AddEvent? {
      assert InTable(s.table, a.toolId, OpenUnder(s.effects, a.toolId));
    }
  }

  lemma {:induction false} TableIsTheHistoryFrom(s: Spans, actions: seq<TraceAction>)
    requires Agrees(s)
    ensures ApplyAll(s, actions).effects == Fold(Told, s.effects, actions)
    decreases |actions|
  {
    if actions != [] {
      ApplyTells(s, actions[0]);
      ApplyAgrees(s, actions[0]);
      TableIsTheHistoryFrom(Apply(s, actions[0]), actions[1..]);
    }
  }

  /** The open table is a faster form of reading the history: the tracer is told the same without it. */
  lemma TableIsTheHistory(actions: seq<TraceAction>)
    ensures ApplyAll(NO_SPANS, actions).effects == Fold(Told, [], actions)
  {
    NothingAgrees();
    TableIsTheHistoryFrom(NO_SPANS, actions);
  }

  // ---- Main results ----

  /** What the tracer is told, as a function of the whole stdout. */
  function TraceOf(parse: LineParser, adapter: Adapter, stdout: Bytes): seq<Effect> {
    Abandon(AfterLines(parse, adapter, NO_SPANS, stdout)).effects
  }

  /** At every moment of a turn the open table is right, and at most one span is open per tool. */
  lemma OneOpenSpanPerTool(actions: seq<TraceAction>)
    ensures Agrees(ApplyAll(NO_SPANS, actions))
  {
    NothingAgrees();
    ApplyAllAgrees(NO_SPANS, actions);
  }

  /** After `finish` every span that was started has been ended exactly once, and nothing else was ended. */
  lemma EverySpanEndsOnce(parse: LineParser, adapter: Adapter, stdout: Bytes)
    ensures var effects := TraceOf(parse, adapter, stdout);
            && WellBracketed(effects)
            && forall span: nat :: Ends(effects, span) == if span < Starts(effects) then 1 else 0
  {
    var s := ApplyAll(NO_SPANS, ActionsOfLines(parse, adapter, Complete(stdout, NEWLINE)));
    var effects := Abandon(s).effects;
    OneOpenSpanPerTool(ActionsOfLines(parse, adapter, Complete(stdout, NEWLINE)));
    AbandonAgrees(s);
    BracketedEndsOnce(effects);
    forall span: nat ensures Ends(effects, span) == if span < Starts(effects) then 1 else 0 {
      assert InTable([], ToolOf(effects, span), OpenUnder(effects, ToolOf(effects, span)));
    }
  }

  // ---- The emitter ----

  class RuntimeTraceEmitter {
    const parse: LineParser
    const adapter: Option<Adapter>
    var lineBuf: Bytes
    var openToolSpans: seq<OpenSpan>
    /** The tracer's side. */
    var effects: seq<Effect>
    var started: nat
    ghost var fed: Bytes

    constructor (parse: LineParser, adapter: Option<Adapter>)
      ensures Valid() && fed == [] && this.parse == parse && this.adapter == adapter
    {
      this.parse, this.adapter := parse, adapter;
      lineBuf, openToolSpans, effects, started, fed := [], [], [], 0, [];
      new;
      SplitNone<bv8>([], NEWLINE);
    }

    function Now(): Spans
      reads this
    {
      Spans(openToolSpans, effects, started)
    }

    /** The emitter has dealt with exactly the complete lines of what it was fed, however that arrived. */
    ghost predicate Valid()
      reads this
    {
      && (adapter.None? ==> fed == [])
      && lineBuf == Rest(fed, NEWLINE)
      && Now() == (if adapter.None? then NO_SPANS
                     else AfterLines(parse, adapter.value, NO_SPANS, fed))
    }

    method ApplyOne(action: TraceAction)
      modifies this`openToolSpans, this`effects, this`started
      ensures Now() == Apply(old(Now()), action)
    {
      match action
      case AddEvent(name, attrs) =>
        effects := effects + [ParentEvent(name, CleanAttrs(attrs))];
      case ToolStart(toolId, spanName, attrs) =>
        if toolId == "" || Find(openToolSpans, toolId) < |openToolSpans| {
          return;
        }
        effects := effects + [SpanStarted(started, toolId, spanName, CleanAttrs(attrs))];
        openToolSpans := openToolSpans + [OpenSpan(toolId, started)];
        started := started + 1;
      case ToolEnd(toolId, attrs) =>
        var k := Find(openToolSpans, toolId);
        if k == |openToolSpans| {
          return;
        }
        effects := effects + [SpanEnded(openToolSpans[k].span, toolId, Matched, CleanAttrs(attrs))];
        openToolSpans := openToolSpans[..k] + openToolSpans[k + 1..];
    }

    method HandleLine(line: Bytes)
      requires adapter.Some?
      modifies this`openToolSpans, this`effects, this`started
      ensures Now() == ApplyAll(old(Now()), ActionsOf(parse, adapter.value, line))
    {
      ghost var start := Now();
      if Blank(line) {
        return;
      }
      var obj := parse(line);
      if obj.None? || !obj.value.JObj? {
        return;
      }
      var actions := adapter.value(obj.value.fields);
      if actions.None? {
        return;
      }
      for i := 0 to |actions.value|
        invariant Now() == ApplyAll(start, actions.value[..i])
      {
        assert actions.value[..i + 1] == actions.value[..i] + [actions.value[i]];
        ApplyAllAppend(start, actions.value[..i], [actions.value[i]]);
        ApplyAllOne(Now(), actions.value[i]);
        ApplyOne(actions.value[i]);
      }
      assert actions.value[..|actions.value|] == actions.value;
    }

    /** The loop of `feed`: every complete line in the buffer is handled and removed. */
    method HandleLines()
      requires adapter.Some?
      modifies this`lineBuf, this`openToolSpans, this`effects, this`started
      ensures lineBuf == Rest(old(lineBuf), NEWLINE)
      ensures Now() == AfterLines(parse, adapter.value, old(Now()), old(lineBuf))
    {
      ghost var start, whole := lineBuf, AfterLines(parse, adapter.value, Now(), lineBuf);
      var idx := IndexOf(lineBuf, NEWLINE);
      while idx < |lineBuf|
        invariant idx == IndexOf(lineBuf, NEWLINE)
        invariant Rest(start, NEWLINE) == Rest(lineBuf, NEWLINE)
        invariant whole == AfterLines(parse, adapter.value, Now(), lineBuf)
        decreases |lineBuf|
      {
        HandleFirst(idx);
        idx := IndexOf(lineBuf, NEWLINE);
      }
      NoMoreLines(parse, adapter.value, Now(), lineBuf);
    }

    method HandleFirst(idx: nat)
      requires adapter.Some? && idx == IndexOf(lineBuf, NEWLINE) < |lineBuf|
      modifies this`lineBuf, this`openToolSpans, this`effects, this`started
      ensures lineBuf == old(lineBuf)[idx + 1..]
      ensures Rest(lineBuf, NEWLINE) == Rest(old(lineBuf), NEWLINE)
      ensures AfterLines(parse, adapter.value, Now(), lineBuf)
              == AfterLines(parse, adapter.value, old(Now()), old(lineBuf))
    {
      ghost var buf, before := lineBuf, Now();
      var line := lineBuf[..idx];
      lineBuf := lineBuf[idx + 1..];
      HandleLine(line);
      FirstLine(parse, adapter.value, buf, before, idx);
      RestOfFirst(buf, idx);
    }

    method Feed(stream: string, data: Bytes)
      requires Valid()
      modifies this
      ensures Valid()
      ensures fed == if adapter.Some? && stream == "stdout" then old(fed) + data else old(fed)
    {
      if adapter.None? || stream != "stdout" {
        return;
      }
      MoreLines(parse, adapter.value, fed, data);
      fed := fed + data;
      lineBuf := lineBuf + data;
      HandleLines();
    }

    /** Afterwards the tracer has been told exactly the one-shot trace of the whole stdout. */
    method Finish()
      requires Valid()
      modifies this`openToolSpans, this`effects
      ensures openToolSpans == []
      ensures adapter.Some? ==> effects == TraceOf(parse, adapter.value, fed)
      ensures adapter.None? ==> effects == []
    {
      ghost var start, open := Now(), openToolSpans;
      for i := 0 to |openToolSpans|
        invariant openToolSpans == open
        invariant Abandon(start) == Abandon(Spans(open[i..], effects, start.started))
        invariant adapter.None? ==> effects == []
      {
        assert open[i..][0] == open[i] && open[i..][1..] == open[i + 1..];
        effects := effects + [SpanEnded(openToolSpans[i].span, openToolSpans[i].toolId, Abandoned, map[])];
      }
      assert open[|open|..] == [];
      openToolSpans := [];
    }
  }

  lemma {:induction false} NoMoreLines(parse: LineParser, adapter: Adapter, s: Spans, buf: Bytes)
    requires IndexOf(buf, NEWLINE) == |buf|
    ensures AfterLines(parse, adapter, s, buf) == s && Rest(buf, NEWLINE) == buf
  {
  }

  lemma {:induction false} FirstOfLines(parse: LineParser, adapter: Adapter, s: Spans, line: Bytes, rest: seq<Bytes>)
    ensures ApplyAll(s, ActionsOfLines(parse, adapter, [line] + rest)) ==
            ApplyAll(ApplyAll(s, ActionsOf(parse, adapter, line)), ActionsOfLines(parse, adapter, rest))
  {
    CollectAppend(LineReader(parse, adapter), [line], rest);
    CollectOne(LineReader(parse, adapter), line);
    ApplyAllAppend(s, ActionsOf(parse, adapter, line), ActionsOfLines(parse, adapter, rest));
  }

  lemma {:induction false} FirstLine(parse: LineParser, adapter: Adapter, buf: Bytes, s: Spans, k: nat)
    requires k == IndexOf(buf, NEWLINE) < |buf|
    ensures AfterLines(parse, adapter, s, buf)
         == AfterLines(parse, adapter, ApplyAll(s, ActionsOf(parse, adapter, buf[..k])), buf[k + 1..])
  {
    FirstComplete(buf, NEWLINE);
    FirstOfLines(parse, adapter, s, buf[..k], Complete(buf[k + 1..], NEWLINE));
  }

  lemma {:induction false} RestOfFirst(buf: Bytes, k: nat)
    requires k == IndexOf(buf, NEWLINE) < |buf|
    ensures Rest(buf, NEWLINE) == Rest(buf[k + 1..], NEWLINE)
  {
  }

  lemma {:induction false} MoreLines(parse: LineParser, adapter: Adapter, fed: Bytes, data: Bytes)
    ensures AfterLines(parse, adapter, NO_SPANS, fed + data) ==
            AfterLines(parse, adapter, AfterLines(parse, adapter, NO_SPANS, fed), Rest(fed, NEWLINE) + data)
    ensures Rest(fed + data, NEWLINE) == Rest(Rest(fed, NEWLINE) + data, NEWLINE)
  {
    var a, b := Complete(fed, NEWLINE), Complete(Rest(fed, NEWLINE) + data, NEWLINE);
    SplitInPieces(fed, data, NEWLINE);
    CollectAppend(LineReader(parse, adapter), a, b);
    ApplyAllAppend(NO_SPANS, ActionsOfLines(parse, adapter, a), ActionsOfLines(parse, adapter, b));
  }

  datatype StreamChunk = StreamChunk(stream: string, data: Bytes)

  function StdoutBytes(chunks: seq<StreamChunk>): Bytes {
    Collect(StdoutOf, chunks)
  }

  function StdoutOf(chunk: StreamChunk): Bytes {
    if chunk.stream == "stdout" then chunk.data else []
  }

  lemma StdoutBytesGrow(chunks: seq<StreamChunk>, i: nat)
    requires i < |chunks|
    ensures StdoutBytes(chunks[..i + 1]) == StdoutBytes(chunks[..i]) + StdoutOf(chunks[i])
  {
    assert chunks[..i + 1] == chunks[..i] + [chunks[i]];
    CollectAppend(StdoutOf, chunks[..i], [chunks[i]]);
    CollectOne(StdoutOf, chunks[i]);
  }

  /** A turn's trace depends on the concatenated stdout alone, not on how it was cut into chunks. */
  method TraceTurn(parse: LineParser, adapter: Adapter, chunks: seq<StreamChunk>) returns (effects: seq<Effect>)
    ensures effects == TraceOf(parse, adapter, StdoutBytes(chunks))
  {
    var emitter := new RuntimeTraceEmitter(parse, Some(adapter));
    for i := 0 to |chunks|
      invariant emitter.Valid() && fresh(emitter)
      invariant emitter.fed == StdoutBytes(chunks[..i])
    {
      StdoutBytesGrow(chunks, i);
      emitter.Feed(chunks[i].stream, chunks[i].data);
    }
    assert chunks[..|chunks|] == chunks;
    emitter.Finish();
    effects := emitter.effects;
  }
}
