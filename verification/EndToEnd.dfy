/** From the command's writes to what a reconnecting reader holds: the sink, the log and the stream together. */
module EndToEnd {
  import opened Prelude
  import opened Json
  import opened StreamFormat
  import opened LogTail
  import opened Delivery
  import Formatter
  import LogSink

  type Decoder = LogSink.Decoder

  function NameOf(stream: LogSink.StreamName): string {
    match stream
    case Stdout => "stdout"
    case Stderr => "stderr"
  }

  /** The log row a sink row is stored as. */
  function Stored(row: LogSink.SinkRow, id: nat, turnId: nat, turnNumber: nat): LogRow {
    LogRow(id, OutputKind, NameOf(row.stream), row.data, "", "", None, Some(turnId), Some(turnNumber))
  }

  ghost predicate StoredAs(rows: seq<LogSink.SinkRow>, log: seq<LogRow>, turnId: nat, turnNumber: nat) {
    |log| == |rows| && forall i | 0 <= i < |rows| :: log[i] == Stored(rows[i], log[i].id, turnId, turnNumber)
  }

  /** One turn's output rows in a session's log, among stage rows and the rows of other turns. */
  function OfTurn(log: seq<LogRow>, turnId: nat): seq<LogRow> {
    if log == [] then []
    else (if IsOfTurn(log[0], turnId) then [log[0]] else []) + OfTurn(log[1..], turnId)
  }

  predicate IsOfTurn(row: LogRow, turnId: nat) {
    row.kind == OutputKind && row.turnId == Some(turnId)
  }

  /** A turn's number is its own: the rows' turn column and the number joined to it name the same turn. */
  ghost predicate Numbered(log: seq<LogRow>, turnId: nat, turnNumber: nat) {
    forall row | row in log && row.kind == OutputKind ::
      row.turnId == Some(turnId) <==> row.turnNumber == Some(turnNumber)
  }

  /** What the command printed on stdout, as far as the queue took it. */
  function Printed(decode: Decoder, chunk: LogSink.Chunk): string {
    if chunk.stream == LogSink.Stdout then decode(chunk.data) else ""
  }

  function StdoutPrinted(decode: Decoder, chunks: seq<LogSink.Chunk>): string {
    Collect((chunk: LogSink.Chunk) => Printed(decode, chunk), chunks)
  }

  /** The stdout text in a received payload of this turn. */
  function StdoutOfJson(j: Json, turnNumber: nat): string {
    if j.JObj? && {"type", "turn", "stream", "data"} <= j.fields.Keys
       && j.fields["type"] == JStr("output") && j.fields["turn"] == JNum(turnNumber)
       && j.fields["stream"] == JStr("stdout") && j.fields["data"].JStr?
    then j.fields["data"].s else ""
  }

  /** What a client holds of a turn's stdout. */
  function StdoutHeld(received: seq<Json>, turnNumber: nat): string {
    Collect((j: Json) => StdoutOfJson(j, turnNumber), received)
  }

  lemma KeysDiffer()
    ensures "type" != "id" && "turn" != "id" && "stream" != "id" && "data" != "id" && "turn" != "type"
    ensures "stream" != "type" && "data" != "type" && "stream" != "turn" && "data" != "turn" && "stream" != "data"
    ensures "stage" != "output"
  {
    assert "type"[0] == 't' && "turn"[0] == 't' && "type"[1] == 'y' && "turn"[1] == 'u' && "id"[0] == 'i';
    assert "stream"[0] == 's' && "data"[0] == 'd' && "stage"[0] == 's' && "output"[0] == 'o';
  }

  lemma {:induction false} JsonStdout(row: LogRow, turnId: nat, turnNumber: nat)
    requires row.kind == OutputKind ==> (row.turnId == Some(turnId) <==> row.turnNumber == Some(turnNumber))
    ensures StdoutOfJson(ToJson(RowEvent(row)), turnNumber)
            == if IsOfTurn(row, turnId) then Formatter.StdoutOfRow(row) else ""
  {
    KeysDiffer();
    var fields := ToJson(RowEvent(row)).fields;
    if row.kind == OutputKind {
      assert fields["turn"] == Number(row.turnNumber) && fields["stream"] == JStr(row.stream);
      assert fields["data"] == JStr(row.data) && fields["type"] == JStr("output");
    } else {
      assert fields["type"] == JStr("stage");
    }
  }

  /** Stage rows and other turns' rows add nothing to a turn's text. */
  lemma {:induction false} ReceivedStdout(rows: seq<LogRow>, turnId: nat, turnNumber: nat)
    requires Numbered(rows, turnId, turnNumber)
    ensures StdoutHeld(RowsAsJson(rows), turnNumber) == Formatter.StdoutOfRows(OfTurn(rows, turnId))
    decreases |rows|
  {
    if rows != [] {
      assert rows[0] in rows;
      JsonStdout(rows[0], turnId, turnNumber);
      ReceivedStdout(rows[1..], turnId, turnNumber);
      assert RowsAsJson(rows)[1..] == RowsAsJson(rows[1..]);
      var first := if IsOfTurn(rows[0], turnId) then [rows[0]] else [];
      CollectAppend(Formatter.StdoutOfRow, first, OfTurn(rows[1..], turnId));
      CollectOne(Formatter.StdoutOfRow, rows[0]);
    }
  }

  lemma NamesDiffer()
    ensures NameOf(LogSink.Stdout) == "stdout" && NameOf(LogSink.Stderr) != "stdout"
  {
    assert "stderr"[3] == 'e' && "stdout"[3] == 'o';
  }

  lemma {:induction false} StoredStdout(
    decode: Decoder, chunks: seq<LogSink.Chunk>, rows: seq<LogRow>, turnId: nat, turnNumber: nat)
    requires StoredAs(LogSink.Rows(decode, chunks), rows, turnId, turnNumber)
    ensures Formatter.StdoutOfRows(rows) == StdoutPrinted(decode, chunks)
    decreases |chunks|
  {
    if chunks != [] {
      NamesDiffer();
      assert rows[0] == Stored(LogSink.Rows(decode, chunks)[0], rows[0].id, turnId, turnNumber);
      assert LogSink.Rows(decode, chunks)[1..] == LogSink.Rows(decode, chunks[1..]);
      StoredStdout(decode, chunks[1..], rows[1..], turnId, turnNumber);
    }
  }

  lemma {:induction false} BetweenHasTurn(log: seq<LogRow>, turnId: nat, a: nat, b: nat)
    requires forall row | row in OfTurn(log, turnId) :: a < row.id <= b
    ensures OfTurn(Between(log, a, b), turnId) == OfTurn(log, turnId)
    ensures forall row | row in Between(log, a, b) :: row in log
  {
    if log != [] {
      var rest := OfTurn(log[1..], turnId);
      assert IsOfTurn(log[0], turnId) ==> log[0] in OfTurn(log, turnId);
      assert forall row | row in rest :: row in OfTurn(log, turnId);
      BetweenHasTurn(log[1..], turnId, a, b);
      FirstAndRest(log[0], Between(log[1..], a, b));
      assert log == [log[0]] + log[1..] && [] + Between(log[1..], a, b) == Between(log[1..], a, b);
    }
  }

  /** The reader began before the turn's first row and its cursor has come to the last. */
  ghost predicate HasReadTurn(u: Setup, c: Client, turnId: nat) {
    var cursor := ServerCursor(u.since0, c.lastEventId);
    cursor.Ok? && forall row | row in OfTurn(u.log, turnId) :: u.since0 < row.id <= cursor.value
  }

  /**
   The whole way. A session's log holds stage rows and the output of many
   turns. When the drain of one turn has returned and a reader has come past
   that turn's rows, over however many connections, cut anywhere, the stdout it
   holds of the turn is the decoded text of the chunks the queue took before
   the command ended: all of them, in order, each once, however they were
   batched, polled and framed.
   */
  lemma {:induction false} StdoutReachesTheReader(
    u: Setup, decode: Decoder, actions: seq<LogSink.Action>, turnId: nat, turnNumber: nat, conns: seq<Connection>)
    requires u.Valid() && AllStart(conns) && Numbered(u.log, turnId, turnNumber)
    ensures var (s, h) := LogSink.RunActions(decode, LogSink.EMPTY_SINK, LogSink.EMPTY_HISTORY, actions);
            var c := ConnectAll(u, NEW_CLIENT, conns);
            && s.drain == LogSink.Returned && StoredAs(s.persisted, OfTurn(u.log, turnId), turnId, turnNumber)
            && HasReadTurn(u, c, turnId) && !EverLosesCursor(u, NEW_CLIENT, conns)
            ==>
            && h.beforeSentinel <= |h.accepted|
            && StdoutHeld(RowsReceived(u.codec, c.received), turnNumber)
               == StdoutPrinted(decode, h.accepted[..h.beforeSentinel])
  {
    var (s, h) := LogSink.RunActions(decode, LogSink.EMPTY_SINK, LogSink.EMPTY_HISTORY, actions);
    var c := ConnectAll(u, NEW_CLIENT, conns);
    LogSink.ReturnedMeansAllPersisted(decode, actions);
    ExactlyOnceIff(u, conns);
    if && s.drain == LogSink.Returned && StoredAs(s.persisted, OfTurn(u.log, turnId), turnId, turnNumber)
       && HasReadTurn(u, c, turnId) && !EverLosesCursor(u, NEW_CLIENT, conns)
    {
      var cursor := ServerCursor(u.since0, c.lastEventId).value;
      BetweenHasTurn(u.log, turnId, u.since0, cursor);
      ReceivedStdout(Between(u.log, u.since0, cursor), turnId, turnNumber);
      StoredStdout(decode, h.accepted[..h.beforeSentinel], OfTurn(u.log, turnId), turnId, turnNumber);
    }
  }
}
