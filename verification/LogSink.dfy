/**
 The bounded queue between a turn's command and the session log, and the
 batching drain (session_service/log_sink.py). `Act` interleaves the writers,
 the command thread and the drain; the class below is the sink itself.
 */
module LogSink {
  import opened Prelude
  import opened Protocol

  const FLUSH_SIZE := 20
  const QUEUE_MAXSIZE := 4096
  /** The number of tries a batch gets. */
  const BULK_CREATE_TRIES := 3

  datatype StreamName = Stdout | Stderr

  datatype Chunk = Chunk(stream: StreamName, data: seq<bv8>)

  datatype QueueItem = Data(chunk: Chunk) | Sentinel

  datatype SinkRow = SinkRow(stream: StreamName, data: string)

  /** The per-chunk decoder; nothing is asked of it. */
  type Decoder = seq<bv8> -> string

  /** Where the drain loop is: at its head, or trying to insert a batch; `last` is the flush after the sentinel. */
  datatype Drain = AtHead | Flushing(tries: nat, last: bool) | Returned | Raised

  /** The command thread: running, ended with or without a recorded result, signalled. */
  datatype Command = Working | Ended | Signalled

  datatype Sink = Sink(
    queue: seq<QueueItem>,
    buffer: seq<SinkRow>,
    persisted: seq<SinkRow>,
    stdoutDrops: nat,
    stderrDrops: nat,
    drain: Drain,
    command: Command,
    result: CommandResult)

  /** What has been written so far, in the order the queue saw it. */
  datatype History = History(accepted: seq<Chunk>, writes: nat, beforeSentinel: nat)

  datatype Action =
    | Write(stream: StreamName, data: seq<bv8>)
    | CommandEnds(outcome: CommandResult)
    | PutSentinel
    | Get
    | GetTimesOut
    | Insert(ok: bool)

  const EMPTY_SINK := Sink([], [], [], 0, 0, AtHead, Working, NoResult)
  const EMPTY_HISTORY := History([], 0, 0)

  predicate Enabled(s: Sink, a: Action) {
    match a
    case Write(_, _) => true
    case CommandEnds(_) => s.command == Working
    case PutSentinel => s.command == Ended && |s.queue| < QUEUE_MAXSIZE
    case Get => s.drain == AtHead && s.queue != []
    case GetTimesOut => s.drain == AtHead && s.queue == []
    case Insert(_) => s.drain.Flushing?
  }

  /** Starting a flush with nothing buffered is over at once. */
  function StartFlush(s: Sink, last: bool): Sink {
    if s.buffer == [] then s.(drain := if last then Returned else AtHead)
    else s.(drain := Flushing(1, last))
  }

  function Act(decode: Decoder, s: Sink, a: Action): Sink
    requires Enabled(s, a)
  {
    match a
    case Write(stream, data) =>
      if |s.queue| < QUEUE_MAXSIZE then s.(queue := s.queue + [Data(Chunk(stream, data))])
      else if stream == Stdout then s.(stdoutDrops := s.stdoutDrops + 1)
      else s.(stderrDrops := s.stderrDrops + 1)
    case CommandEnds(outcome) => s.(command := Ended, result := outcome)
    case PutSentinel => s.(command := Signalled, queue := s.queue + [Sentinel])
    case Get =>
      var rest := s.(queue := s.queue[1..]);
      if s.queue[0].Sentinel? then StartFlush(rest, true)
      else
        var chunk := s.queue[0].chunk;
        var taken := rest.(buffer := s.buffer + [SinkRow(chunk.stream, decode(chunk.data))]);
        if |taken.buffer| >= FLUSH_SIZE then StartFlush(taken, false) else taken
    case GetTimesOut => StartFlush(s, false)
    case Insert(ok) =>
      var next := if s.drain.last then Returned else AtHead;
      if ok then s.(persisted := s.persisted + s.buffer, buffer := [], drain := next)
      else if s.drain.tries == BULK_CREATE_TRIES then s.(drain := Raised)
      else s.(drain := s.drain.(tries := s.drain.tries + 1))
  }

  function Record(h: History, s: Sink, a: Action): History {
    match a
    case Write(stream, data) =>
      if |s.queue| < QUEUE_MAXSIZE then h.(accepted := h.accepted + [Chunk(stream, data)], writes := h.writes + 1)
      else h.(writes := h.writes + 1)
    case PutSentinel => h.(beforeSentinel := |h.accepted|)
    case _ => h
  }

  /** A step that cannot be taken now is not taken. */
  function RunActions(decode: Decoder, s: Sink, h: History, actions: seq<Action>): (Sink, History)
    decreases |actions|
  {
    if actions == [] then (s, h)
    else if !Enabled(s, actions[0]) then RunActions(decode, s, h, actions[1..])
    else RunActions(decode, Act(decode, s, actions[0]), Record(h, s, actions[0]), actions[1..])
  }

  // ---- Conservation ----

  function Rows(decode: Decoder, chunks: seq<Chunk>): seq<SinkRow> {
    seq(|chunks|, i requires 0 <= i < |chunks| => SinkRow(chunks[i].stream, decode(chunks[i].data)))
  }

  /** The chunks still in the queue. */
  function Queued(queue: seq<QueueItem>): seq<Chunk> {
    if queue == [] then []
    else (if queue[0].Data? then [queue[0].chunk] else []) + Queued(queue[1..])
  }

  lemma {:induction false} QueuedAppend(a: seq<QueueItem>, b: seq<QueueItem>)
    ensures Queued(a + b) == Queued(a) + Queued(b)
  {
    if a == [] {
      assert a + b == b;
    } else {
      assert (a + b)[0] == a[0] && (a + b)[1..] == a[1..] + b;
      QueuedAppend(a[1..], b);
      Associative(if a[0].Data? then [a[0].chunk] else [], Queued(a[1..]), Queued(b));
    }
  }

  lemma {:induction false} QueuedPut(queue: seq<QueueItem>, item: QueueItem)
    ensures Queued(queue + [item]) == Queued(queue) + (if item.Data? then [item.chunk] else [])
  {
    QueuedAppend(queue, [item]);
    assert [item][1..] == [];
  }

  predicate Conserved(decode: Decoder, s: Sink, h: History) {
    && s.persisted + s.buffer + Rows(decode, Queued(s.queue)) == Rows(decode, h.accepted)
    && |h.accepted| + s.stdoutDrops + s.stderrDrops == h.writes
    && |s.queue| <= 4096
    && |s.buffer| <= 20
    && (s.drain == AtHead ==> |s.buffer| < 20)
    && (s.drain.Flushing? ==> s.buffer != [] && 1 <= s.drain.tries <= 3)
  }

  lemma {:induction false} WriteConserves(decode: Decoder, s: Sink, h: History, a: Action)
    requires Conserved(decode, s, h) && a.Write?
    ensures Conserved(decode, Act(decode, s, a), Record(h, s, a))
  {
    var chunk := Chunk(a.stream, a.data);
    QueuedPut(s.queue, Data(chunk));
    assert Rows(decode, Queued(s.queue) + [chunk]) == Rows(decode, Queued(s.queue)) + Rows(decode, [chunk]);
    assert Rows(decode, h.accepted + [chunk]) == Rows(decode, h.accepted) + Rows(decode, [chunk]);
  }

  lemma {:induction false} GetConserves(decode: Decoder, s: Sink, h: History)
    requires Conserved(decode, s, h) && Enabled(s, Get)
    ensures Conserved(decode, Act(decode, s, Get), Record(h, s, Get))
  {
    if s.queue[0].Data? {
      var chunk := s.queue[0].chunk;
      assert Rows(decode, [chunk] + Queued(s.queue[1..])) == Rows(decode, [chunk]) + Rows(decode, Queued(s.queue[1..]));
      assert Rows(decode, [chunk]) == [SinkRow(chunk.stream, decode(chunk.data))];
    }
  }

  lemma {:induction false} StepConserves(decode: Decoder, s: Sink, h: History, a: Action)
    requires Conserved(decode, s, h) && Enabled(s, a)
    ensures Conserved(decode, Act(decode, s, a), Record(h, s, a))
  {
    match a
    case Write(_, _) => WriteConserves(decode, s, h, a);
    case Get => GetConserves(decode, s, h);
    case PutSentinel => QueuedPut(s.queue, Sentinel);
    case Insert(_) => assert s.persisted + s.buffer + [] == s.persisted + s.buffer;
    case _ =>
  }

  /**
   Under every interleaving: nothing accepted is lost, doubled or reordered, and
   every write is accepted or counted as dropped.
   */
  lemma {:induction false} RunConserves(decode: Decoder, s: Sink, h: History, actions: seq<Action>)
    requires Conserved(decode, s, h)
    ensures Conserved(decode, RunActions(decode, s, h, actions).0, RunActions(decode, s, h, actions).1)
    decreases |actions|
  {
    if actions != [] {
      if Enabled(s, actions[0]) {
        StepConserves(decode, s, h, actions[0]);
        RunConserves(decode, Act(decode, s, actions[0]), Record(h, s, actions[0]), actions[1..]);
      } else {
        RunConserves(decode, s, h, actions[1..]);
      }
    }
  }

  lemma {:induction false} LogConservation(decode: Decoder, actions: seq<Action>)
    ensures Conserved(decode, RunActions(decode, EMPTY_SINK, EMPTY_HISTORY, actions).0,
            RunActions(decode, EMPTY_SINK, EMPTY_HISTORY, actions).1)
  {
    RunConserves(decode, EMPTY_SINK, EMPTY_HISTORY, actions);
  }

  /**
   The drain flushes a non-empty buffer when it has taken the twentieth chunk,
   when the queue has been empty for its timeout, and at the sentinel; it does
   not flush otherwise, and is over only behind the sentinel.
   */
  lemma {:induction false} WhenItFlushes(decode: Decoder, s: Sink, a: Action)
    requires Enabled(s, a) && s.drain == AtHead && |s.buffer| < 20
    ensures var t := Act(decode, s, a);
            && (t.drain == Flushing(1, false) <==>
                  || (a == Get && s.queue[0].Data? && |s.buffer| == 19)
                  || (a == GetTimesOut && s.buffer != []))
            && (t.drain == Flushing(1, true) <==> a == Get && s.queue[0].Sentinel? && s.buffer != [])
            && (t.drain == Returned <==> a == Get && s.queue[0].Sentinel? && s.buffer == [])
            && t.drain in {AtHead, Returned, Flushing(1, true), Flushing(1, false)}
  {
  }

  /** A write is taken while fewer than 4096 chunks wait. */
  lemma {:induction false} WhenItDrops(decode: Decoder, s: Sink, stream: StreamName, data: seq<bv8>)
    ensures var t := Act(decode, s, Write(stream, data));
            if |s.queue| < 4096 then t == s.(queue := s.queue + [Data(Chunk(stream, data))])
            else t.queue == s.queue && t.stdoutDrops + t.stderrDrops == s.stdoutDrops + s.stderrDrops + 1
  {
  }

  function WritesTo(actions: seq<Action>, stream: StreamName): nat {
    if actions == [] then 0
    else (if actions[0].Write? && actions[0].stream == stream then 1 else 0) + WritesTo(actions[1..], stream)
  }

  function ChunksOf(chunks: seq<Chunk>, stream: StreamName): nat {
    if chunks == [] then 0
    else (if chunks[|chunks| - 1].stream == stream then 1 else 0) + ChunksOf(chunks[..|chunks| - 1], stream)
  }

  function DropsOf(s: Sink, stream: StreamName): nat {
    match stream
    case Stdout => s.stdoutDrops
    case Stderr => s.stderrDrops
  }

  lemma {:induction false} StreamCounts(
    decode: Decoder, s: Sink, h: History, actions: seq<Action>, stream: StreamName)
    ensures var (t, g) := RunActions(decode, s, h, actions);
            ChunksOf(g.accepted, stream) + DropsOf(t, stream)
            == ChunksOf(h.accepted, stream) + DropsOf(s, stream) + WritesTo(actions, stream)
    decreases |actions|
  {
    if actions != [] {
      var a := actions[0];
      if Enabled(s, a) {
        if a.Write? {
          assert (h.accepted + [Chunk(a.stream, a.data)])[..|h.accepted|] == h.accepted;
        }
        StreamCounts(decode, Act(decode, s, a), Record(h, s, a), actions[1..], stream);
      } else {
        StreamCounts(decode, s, h, actions[1..], stream);
      }
    }
  }

  /** Stream by stream, every write is either accepted or counted as dropped. */
  lemma {:induction false} DropsPerStream(decode: Decoder, actions: seq<Action>, stream: StreamName)
    ensures var (s, h) := RunActions(decode, EMPTY_SINK, EMPTY_HISTORY, actions);
            ChunksOf(h.accepted, stream) + DropsOf(s, stream) == WritesTo(actions, stream)
  {
    StreamCounts(decode, EMPTY_SINK, EMPTY_HISTORY, actions, stream);
  }

  // ---- The sentinel ----

  function Sentinels(queue: seq<QueueItem>): nat {
    if queue == [] then 0 else (if queue[0].Sentinel? then 1 else 0) + Sentinels(queue[1..])
  }

  /** The chunks behind the first sentinel. */
  function Behind(queue: seq<QueueItem>): seq<Chunk> {
    if queue == [] then []
    else if queue[0].Sentinel? then Queued(queue[1..])
    else Behind(queue[1..])
  }

  lemma {:induction false} PutBehind(queue: seq<QueueItem>, item: QueueItem)
    ensures Sentinels(queue + [item]) == Sentinels(queue) + (if item.Sentinel? then 1 else 0)
    ensures item.Data? && Sentinels(queue) > 0 ==> Behind(queue + [item]) == Behind(queue) + [item.chunk]
    ensures item.Sentinel? && Sentinels(queue) == 0 ==> Behind(queue + [item]) == []
  {
    if queue == [] {
      assert [item][1..] == [];
    } else {
      assert (queue + [item])[0] == queue[0] && (queue + [item])[1..] == queue[1..] + [item];
      PutBehind(queue[1..], item);
      QueuedPut(queue[1..], item);
    }
  }

  predicate PastSentinel(drain: Drain) {
    drain == Returned || (drain.Flushing? && drain.last)
  }

  /** There is one sentinel, put in after the result; what was accepted after it is behind it, or all that is left. */
  ghost predicate SentinelInPlace(s: Sink, h: History) {
    && (s.command == Working ==> s.result == NoResult)
    && (s.command != Signalled ==> Sentinels(s.queue) == 0 && !PastSentinel(s.drain))
    && (s.command == Signalled ==>
          && h.beforeSentinel <= |h.accepted|
          && Sentinels(s.queue) <= 1
          && (Sentinels(s.queue) == 1 ==>
                !PastSentinel(s.drain) && Behind(s.queue) == h.accepted[h.beforeSentinel..])
          && (Sentinels(s.queue) == 0 ==>
                s.drain != AtHead && (s.drain.Flushing? ==> s.drain.last)
                && Queued(s.queue) == h.accepted[h.beforeSentinel..]))
    && (s.drain == Returned ==> s.buffer == [])
  }

  lemma {:induction false} StepKeepsSentinel(decode: Decoder, s: Sink, h: History, a: Action)
    requires SentinelInPlace(s, h) && Enabled(s, a)
    ensures SentinelInPlace(Act(decode, s, a), Record(h, s, a))
  {
    match a
    case Write(stream, data) =>
      PutBehind(s.queue, Data(Chunk(stream, data)));
      QueuedPut(s.queue, Data(Chunk(stream, data)));
    case PutSentinel => PutBehind(s.queue, Sentinel);
    case _ =>
  }

  lemma {:induction false} RunKeepsSentinel(decode: Decoder, s: Sink, h: History, actions: seq<Action>)
    requires SentinelInPlace(s, h)
    ensures SentinelInPlace(RunActions(decode, s, h, actions).0, RunActions(decode, s, h, actions).1)
    decreases |actions|
  {
    if actions != [] {
      if Enabled(s, actions[0]) {
        StepKeepsSentinel(decode, s, h, actions[0]);
        RunKeepsSentinel(decode, Act(decode, s, actions[0]), Record(h, s, actions[0]), actions[1..]);
      } else {
        RunKeepsSentinel(decode, s, h, actions[1..]);
      }
    }
  }

  /**
   When drain returns, exactly the chunks accepted before the sentinel are in
   the log, once and in order, whatever inserts failed on the way.
   */
  lemma {:induction false} ReturnedMeansAllPersisted(decode: Decoder, actions: seq<Action>)
    ensures var (s, h) := RunActions(decode, EMPTY_SINK, EMPTY_HISTORY, actions);
            s.drain == Returned ==>
              && s.command == Signalled && s.buffer == []
              && h.beforeSentinel <= |h.accepted|
              && s.persisted == Rows(decode, h.accepted[..h.beforeSentinel])
              && Queued(s.queue) == h.accepted[h.beforeSentinel..]
  {
    RunConserves(decode, EMPTY_SINK, EMPTY_HISTORY, actions);
    RunKeepsSentinel(decode, EMPTY_SINK, EMPTY_HISTORY, actions);
    var (s, h) := RunActions(decode, EMPTY_SINK, EMPTY_HISTORY, actions);
    if s.drain == Returned {
      var b := h.beforeSentinel;
      assert h.accepted == h.accepted[..b] + h.accepted[b..];
      assert Rows(decode, h.accepted) == Rows(decode, h.accepted[..b]) + Rows(decode, h.accepted[b..]);
      assert s.persisted + Rows(decode, h.accepted[b..]) == Rows(decode, h.accepted);
      SameTail(s.persisted, Rows(decode, h.accepted[..b]), Rows(decode, h.accepted[b..]));
    }
  }

  lemma {:induction false} SameTail<T>(a: seq<T>, b: seq<T>, tail: seq<T>)
    requires a + tail == b + tail
    ensures a == b
  {
    assert |a| == |b|;
    assert a == (a + tail)[..|a|] && b == (b + tail)[..|b|];
  }

  /** When drain raises, the log holds whole batches: a prefix of what was accepted, the failed batch following it. */
  lemma {:induction false} RaisedKeepsAPrefix(decode: Decoder, actions: seq<Action>)
    ensures var (s, h) := RunActions(decode, EMPTY_SINK, EMPTY_HISTORY, actions);
            s.persisted + s.buffer <= Rows(decode, h.accepted)
  {
    RunConserves(decode, EMPTY_SINK, EMPTY_HISTORY, actions);
  }

  /**
   Inserts are all or nothing: a step leaves the log alone or adds the whole
   buffer; and only the third failure in a row raises.
   */
  lemma {:induction false} InsertsAreAllOrNothing(decode: Decoder, s: Sink, a: Action)
    requires Enabled(s, a)
    ensures var t := Act(decode, s, a);
            && (t.persisted == s.persisted
                || (t.persisted == s.persisted + s.buffer && t.buffer == [] && a == Insert(true)))
            && (t.drain == Raised && s.drain != Raised <==>
                  a == Insert(false) && s.drain.tries == 3)
            && (a == Insert(false) && s.drain.tries < 3 ==>
                  t == s.(drain := Flushing(s.drain.tries + 1, s.drain.last)))
  {
  }

  /**
   A quiet runtime's output does not stay in the buffer: one timeout and one
   good insert, and everything accepted is in the log.
   */
  lemma {:induction false} QuietMeansPersisted(decode: Decoder, actions: seq<Action>)
    ensures var (s, h) := RunActions(decode, EMPTY_SINK, EMPTY_HISTORY, actions);
            Enabled(s, GetTimesOut) ==>
              RunActions(decode, s, h, [GetTimesOut, Insert(true)]).0.persisted == Rows(decode, h.accepted)
  {
    var (s, h) := RunActions(decode, EMPTY_SINK, EMPTY_HISTORY, actions);
    RunConserves(decode, EMPTY_SINK, EMPTY_HISTORY, actions);
    if Enabled(s, GetTimesOut) {
      var t := Act(decode, s, GetTimesOut);
      assert s.persisted + s.buffer + [] == s.persisted + s.buffer;
      assert [GetTimesOut, Insert(true)][1..] == [Insert(true)];
      RunOne(decode, t, h, Insert(true));
    }
  }

  // ---- The command's result ----

  /** The outcome of the command: there is one, whatever else the schedule offers. */
  function FirstOutcome(actions: seq<Action>): CommandResult {
    if actions == [] then NoResult
    else if actions[0].CommandEnds? then actions[0].outcome
    else FirstOutcome(actions[1..])
  }

  lemma {:induction false} ResultStays(decode: Decoder, s: Sink, h: History, actions: seq<Action>)
    requires s.command != Working
    ensures RunActions(decode, s, h, actions).0.result == s.result
            && RunActions(decode, s, h, actions).0.command != Working
    decreases |actions|
  {
    if actions != [] {
      if Enabled(s, actions[0]) {
        ResultStays(decode, Act(decode, s, actions[0]), Record(h, s, actions[0]), actions[1..]);
      } else {
        ResultStays(decode, s, h, actions[1..]);
      }
    }
  }

  lemma {:induction false} ResultIsTheFirst(decode: Decoder, s: Sink, h: History, actions: seq<Action>)
    requires s.command == Working && s.result == NoResult
    ensures var t := RunActions(decode, s, h, actions).0;
            if t.command == Working then t.result == NoResult else t.result == FirstOutcome(actions)
    decreases |actions|
  {
    if actions != [] {
      if actions[0].CommandEnds? {
        ResultStays(decode, Act(decode, s, actions[0]), Record(h, s, actions[0]), actions[1..]);
      } else if Enabled(s, actions[0]) {
        ResultIsTheFirst(decode, Act(decode, s, actions[0]), Record(h, s, actions[0]), actions[1..]);
      } else {
        ResultIsTheFirst(decode, s, h, actions[1..]);
      }
    }
  }

  /**
   The result the turn is finished with, read after drain returns, is the
   command's own and no later step changes it. So the turn completes exactly
   when the command exited with 0.
   */
  lemma {:induction false} FinishedWithTheCommandsResult(decode: Decoder, before: seq<Action>, after: seq<Action>)
    ensures var (s, h) := RunActions(decode, EMPTY_SINK, EMPTY_HISTORY, before);
            s.drain == Returned ==>
              && s.result == FirstOutcome(before)
              && RunActions(decode, s, h, after).0.result == s.result
              && (FinalStatus(s.result).0 == Completed <==> FirstOutcome(before) == Exit(0))
  {
    var (s, h) := RunActions(decode, EMPTY_SINK, EMPTY_HISTORY, before);
    RunKeepsSentinel(decode, EMPTY_SINK, EMPTY_HISTORY, before);
    ResultIsTheFirst(decode, EMPTY_SINK, EMPTY_HISTORY, before);
    if s.drain == Returned {
      ResultStays(decode, s, h, after);
    }
  }

  // ---- The sink itself ----

  /** One turn of the drain loop: what arrived before it, and how its inserts go. */
  datatype Interval = Interval(arrivals: seq<Action>, inserts: Tries)

  datatype Tries = Tries(first: bool, second: bool, third: bool)

  function Inserts(tries: Tries): seq<Action> {
    [Insert(tries.first), Insert(tries.second), Insert(tries.third)]
  }

  /** What the blocking read comes back with. */
  function Reading(s: Sink): Action {
    if s.queue == [] then GetTimesOut else Get
  }

  predicate IsArrival(a: Action) {
    a.Write? || a.CommandEnds? || a.PutSentinel?
  }

  /** The steps of the loop, one interval after another, until it returns or raises. */
  function Trace(decode: Decoder, s: Sink, h: History, schedule: seq<Interval>): seq<Action>
    decreases |schedule|
  {
    if schedule == [] || s.drain != AtHead then []
    else
      var now := TurnActions(decode, s, h, schedule[0]);
      var (s', h') := RunActions(decode, s, h, now);
      now + Trace(decode, s', h', schedule[1..])
  }

  function TurnActions(decode: Decoder, s: Sink, h: History, interval: Interval): seq<Action> {
    interval.arrivals + ([Reading(RunActions(decode, s, h, interval.arrivals).0)] + Inserts(interval.inserts))
  }

  lemma {:induction false} RunAppend(decode: Decoder, s: Sink, h: History, a: seq<Action>, b: seq<Action>)
    ensures RunActions(decode, s, h, a + b)
            == RunActions(decode, RunActions(decode, s, h, a).0, RunActions(decode, s, h, a).1, b)
    decreases |a|
  {
    if a == [] {
      assert a + b == b;
    } else {
      assert (a + b)[0] == a[0] && (a + b)[1..] == a[1..] + b;
      if Enabled(s, a[0]) {
        RunAppend(decode, Act(decode, s, a[0]), Record(h, s, a[0]), a[1..], b);
      } else {
        RunAppend(decode, s, h, a[1..], b);
      }
    }
  }

  lemma {:induction false} InsertsWhenDone(decode: Decoder, s: Sink, h: History, actions: seq<Action>)
    requires !s.drain.Flushing? && forall a | a in actions :: a.Insert?
    ensures RunActions(decode, s, h, actions) == (s, h)
    decreases |actions|
  {
    if actions != [] {
      assert actions[0] in actions && !Enabled(s, actions[0]);
      InsertsWhenDone(decode, s, h, actions[1..]);
    }
  }

  lemma {:induction false} RunOne(decode: Decoder, s: Sink, h: History, a: Action)
    ensures RunActions(decode, s, h, [a]) == if Enabled(s, a) then (Act(decode, s, a), Record(h, s, a)) else (s, h)
  {
    assert [a][1..] == [];
  }

  /** Three tries settle a batch: it is in, or the last of them raised. */
  lemma {:induction false} ThreeTriesSettle(decode: Decoder, s: Sink, h: History, last: bool, tries: Tries)
    ensures var end := RunActions(decode, StartFlush(s, last), h, Inserts(tries)).0.drain;
            end == Raised || end == if last then Returned else AtHead
  {
    var start, actions := StartFlush(s, last), Inserts(tries);
    if s.buffer == [] {
      InsertsWhenDone(decode, start, h, actions);
    } else {
      assert actions[1..][1..] == actions[2..] && actions[2..][1..] == [];
      assert actions == [actions[0]] + actions[1..];
      var second := Act(decode, start, actions[0]);
      if second.drain.Flushing? {
        var third := Act(decode, second, actions[1]);
        if third.drain.Flushing? {
          RunOne(decode, third, h, actions[2]);
          assert actions[2..] == [actions[2]];
        } else {
          InsertsWhenDone(decode, third, h, actions[2..]);
        }
      } else {
        InsertsWhenDone(decode, second, h, actions[1..]);
      }
    }
  }

  /** All of drain's steps are steps of the interleaved machine, so what holds of every run holds of it. */
  lemma {:induction false} TraceRuns(decode: Decoder, s: Sink, h: History, schedule: seq<Interval>)
    requires schedule != [] && s.drain == AtHead
    ensures var (s', h') := RunActions(decode, s, h, TurnActions(decode, s, h, schedule[0]));
            RunActions(decode, s, h, Trace(decode, s, h, schedule))
              == RunActions(decode, s', h', Trace(decode, s', h', schedule[1..]))
  {
    var now := TurnActions(decode, s, h, schedule[0]);
    var (s', h') := RunActions(decode, s, h, now);
    RunAppend(decode, s, h, now, Trace(decode, s', h', schedule[1..]));
  }

  class LogChunkSink {
    const decode: Decoder
    var queue: seq<QueueItem>
    var buffer: seq<SinkRow>
    /** The log table, this turn's rows. */
    var table: seq<SinkRow>
    var stdoutDrops: nat
    var stderrDrops: nat
    var command: Command
    var result: CommandResult
    var draining: Drain
    ghost var history: History

    constructor (decode: Decoder)
      ensures State() == EMPTY_SINK && history == EMPTY_HISTORY && this.decode == decode
    {
      this.decode := decode;
      queue, buffer, table, stdoutDrops, stderrDrops := [], [], [], 0, 0;
      command, result, draining, history := Working, NoResult, AtHead, EMPTY_HISTORY;
    }

    function State(): Sink
      reads this
    {
      Sink(queue, buffer, table, stdoutDrops, stderrDrops, draining, command, result)
    }

    ghost predicate Ran(s: Sink, h: History, actions: seq<Action>)
      reads this
    {
      (State(), history) == RunActions(decode, s, h, actions)
    }

    method Put(stream: StreamName, data: seq<bv8>) returns (written: nat)
      modifies this
      ensures State() == Act(decode, old(State()), Write(stream, data))
      ensures history == Record(old(history), old(State()), Write(stream, data))
      ensures written == |data|
    {
      history := Record(history, State(), Write(stream, data));
      if |queue| < QUEUE_MAXSIZE {
        queue := queue + [Data(Chunk(stream, data))];
      } else if stream == Stdout {
        stdoutDrops := stdoutDrops + 1;
      } else {
        stderrDrops := stderrDrops + 1;
      }
      return |data|;
    }

    /** One arrival of the other threads, if it can happen now. */
    method Arrive(a: Action)
      requires IsArrival(a)
      modifies this
      ensures Ran(old(State()), old(history), [a])
    {
      RunOne(decode, State(), history, a);
      if a.Write? {
        var _ := Put(a.stream, a.data);
      } else if a.CommandEnds? {
        if command == Working {
          command, result := Ended, a.outcome;
        }
      } else if command == Ended && |queue| < QUEUE_MAXSIZE {
        history := Record(history, State(), PutSentinel);
        command, queue := Signalled, queue + [Sentinel];
      }
    }

    method ArriveAll(arrivals: seq<Action>)
      requires forall a | a in arrivals :: IsArrival(a)
      modifies this
      ensures Ran(old(State()), old(history), arrivals)
    {
      ghost var s, h := State(), history;
      for i := 0 to |arrivals|
        invariant Ran(s, h, arrivals[..i])
      {
        assert arrivals[..i + 1] == arrivals[..i] + [arrivals[i]] && arrivals[i] in arrivals;
        RunAppend(decode, s, h, arrivals[..i], [arrivals[i]]);
        Arrive(arrivals[i]);
      }
      assert arrivals[..|arrivals|] == arrivals;
    }

    /** `_flush_buffer`: up to three tries at inserting the whole buffer, and `last` says what follows. */
    method FlushBuffer(inserts: Tries, last: bool)
      requires draining == AtHead
      modifies this
      ensures (State(), history) == RunActions(decode, StartFlush(old(State()), last), old(history), Inserts(inserts))
    {
      ghost var start := StartFlush(State(), last);
      var actions := Inserts(inserts);
      if buffer == [] {
        draining := if last then Returned else AtHead;
        InsertsWhenDone(decode, start, history, actions);
        return;
      }
      draining := Flushing(1, last);
      ghost var whole := RunActions(decode, start, history, actions);
      for attempt := 0 to BULK_CREATE_TRIES
        invariant whole == RunActions(decode, State(), history, actions[attempt..])
        invariant draining == Flushing(attempt + 1, last) && history == old(history)
      {
        assert actions[attempt..][0] == actions[attempt] && actions[attempt..][1..] == actions[attempt + 1..];
        TryInsert(actions[attempt].ok);
        if !draining.Flushing? {
          InsertsWhenDone(decode, State(), history, actions[attempt + 1..]);
          return;
        }
      }
    }

    /** One try: it inserts the whole buffer or nothing, and the last one to fail raises. */
    method TryInsert(ok: bool)
      requires draining.Flushing? && draining.tries <= BULK_CREATE_TRIES
      modifies this
      ensures State() == Act(decode, old(State()), Insert(ok)) && history == old(history)
    {
      if ok {
        table, buffer, draining := table + buffer, [], if draining.last then Returned else AtHead;
      } else if draining.tries == BULK_CREATE_TRIES {
        draining := Raised;
      } else {
        draining := Flushing(draining.tries + 1, draining.last);
      }
    }

    method DrainOnce(interval: Interval)
      requires draining == AtHead && forall a | a in interval.arrivals :: IsArrival(a)
      modifies this
      ensures Ran(old(State()), old(history), TurnActions(decode, old(State()), old(history), interval))
      ensures !draining.Flushing?
    {
      ghost var s, h := State(), history;
      ArriveAll(interval.arrivals);
      TurnSplits(decode, s, h, interval);
      if queue == [] {
        ThreeTriesSettle(decode, State(), history, false, interval.inserts);
        FlushBuffer(interval.inserts, false);
        return;
      }
      var item := queue[0];
      queue := queue[1..];
      if item.Sentinel? {
        ThreeTriesSettle(decode, State(), history, true, interval.inserts);
        FlushBuffer(interval.inserts, true);
        return;
      }
      buffer := buffer + [SinkRow(item.chunk.stream, decode(item.chunk.data))];
      if |buffer| >= FLUSH_SIZE {
        ThreeTriesSettle(decode, State(), history, false, interval.inserts);
        FlushBuffer(interval.inserts, false);
      } else {
        InsertsWhenDone(decode, State(), history, Inserts(interval.inserts));
      }
    }

    /**
     `drain`, against any schedule of arrivals and insert failures: a run of the
     machine that has returned, raised or used up the schedule.
     */
    method Drain(schedule: seq<Interval>)
      requires draining == AtHead
      requires forall interval, a | interval in schedule && a in interval.arrivals :: IsArrival(a)
      modifies this
      ensures Ran(old(State()), old(history), Trace(decode, old(State()), old(history), schedule))
      ensures draining in {AtHead, Returned, Raised}
    {
      ghost var s, h := State(), history;
      ghost var whole := RunActions(decode, s, h, Trace(decode, s, h, schedule));
      var i := 0;
      while i < |schedule| && draining == AtHead
        invariant i <= |schedule| && !draining.Flushing?
        invariant whole == RunActions(decode, State(), history, Trace(decode, State(), history, schedule[i..]))
      {
        assert schedule[i..][0] == schedule[i] && schedule[i..][1..] == schedule[i + 1..];
        assert schedule[i] in schedule;
        TraceRuns(decode, State(), history, schedule[i..]);
        DrainOnce(schedule[i]);
        i := i + 1;
      }
    }
  }

  lemma {:induction false} ArrivalsKeepDrain(decode: Decoder, s: Sink, h: History, arrivals: seq<Action>)
    requires forall a | a in arrivals :: IsArrival(a)
    ensures RunActions(decode, s, h, arrivals).0.drain == s.drain
    decreases |arrivals|
  {
    if arrivals != [] {
      assert arrivals[0] in arrivals;
      if Enabled(s, arrivals[0]) {
        ArrivalsKeepDrain(decode, Act(decode, s, arrivals[0]), Record(h, s, arrivals[0]), arrivals[1..]);
      } else {
        ArrivalsKeepDrain(decode, s, h, arrivals[1..]);
      }
    }
  }

  lemma {:induction false} TurnSplits(decode: Decoder, s: Sink, h: History, interval: Interval)
    requires s.drain == AtHead && forall a | a in interval.arrivals :: IsArrival(a)
    ensures var (s', h') := RunActions(decode, s, h, interval.arrivals);
            && Enabled(s', Reading(s'))
            && RunActions(decode, s, h, TurnActions(decode, s, h, interval)) ==
               RunActions(decode, Act(decode, s', Reading(s')), h', Inserts(interval.inserts))
  {
    var (s', h') := RunActions(decode, s, h, interval.arrivals);
    ArrivalsKeepDrain(decode, s, h, interval.arrivals);
    RunAppend(decode, s, h, interval.arrivals, [Reading(s')] + Inserts(interval.inserts));
    RunAppend(decode, s', h', [Reading(s')], Inserts(interval.inserts));
    RunOne(decode, s', h', Reading(s'));
  }
}
