/** Log rows and the events they are translated into (stream_format.py). */
module StreamFormat {
  import opened Prelude
  import opened Json
  import opened Protocol

  datatype Kind = StageKind | OutputKind

  datatype LogRow = LogRow(
    id: nat,
    kind: Kind,
    stream: string,
    data: string,
    stage: string,
    state: string,
    durationMs: Option<nat>,
    turnId: Option<nat>,
    turnNumber: Option<nat>)

  datatype Event =
    | Start(provider: string, sessionId: string)
    | StageEvent(id: nat, stage: string, state: string, durationMs: Option<nat>, message: Option<string>)
    | TurnStart(id: nat, turn: Option<nat>)
    | Output(id: nat, stream: string, data: string, turn: Option<nat>)
    | ExitEvent(id: nat, code: Option<int>)
    | ErrorEvent(id: nat)
    | TerminatedEvent(id: nat)
    | StaleEvent(id: nat)
  {
    predicate IsRow() {
      StageEvent? || Output?
    }
  }

  // ---- One row ----

  /** The stage or output event of a row. */
  function RowEvent(row: LogRow): (e: Event)
    ensures e.IsRow() && e.id == row.id
  {
    match row.kind
    case StageKind =>
      StageEvent(row.id, row.stage, row.state, row.durationMs,
                 if row.state == "failed" && row.data != "" then Some(row.data) else None)
    case OutputKind => Output(row.id, row.stream, row.data, row.turnNumber)
  }

  /** An output row of a turn other than the last one seen. */
  predicate OpensTurn(row: LogRow, lastTurn: Option<nat>) {
    row.kind == OutputKind && row.turnId.Some? && row.turnId != lastTurn
  }

  function EventsOf(row: LogRow, lastTurn: Option<nat>): seq<Event> {
    (if OpensTurn(row, lastTurn) then [TurnStart(row.id, row.turnNumber)] else []) + [RowEvent(row)]
  }

  function TurnAfter(row: LogRow, lastTurn: Option<nat>): Option<nat> {
    if OpensTurn(row, lastTurn) then row.turnId else lastTurn
  }

  method FormatChunkEvents(chunk: LogRow, lastTurnId: Option<nat>)
      returns (events: seq<Event>, newLastTurnId: Option<nat>)
    ensures events == EventsOf(chunk, lastTurnId)
    ensures newLastTurnId == TurnAfter(chunk, lastTurnId)
  {
    newLastTurnId := lastTurnId;
    if chunk.kind == StageKind {
      var durationMs: Option<nat>, message: Option<string> := None, None;
      if chunk.durationMs != None {
        durationMs := chunk.durationMs;
      }
      if chunk.state == "failed" && chunk.data != "" {
        message := Some(chunk.data);
      }
      events := [StageEvent(chunk.id, chunk.stage, chunk.state, durationMs, message)];
      return;
    }
    events := [];
    if chunk.turnId != None && chunk.turnId != newLastTurnId {
      events := events + [TurnStart(chunk.id, chunk.turnNumber)];
      newLastTurnId := chunk.turnId;
    }
    events := events + [Output(chunk.id, chunk.stream, chunk.data, chunk.turnNumber)];
  }

  predicate IsTerminal(e: Event) {
    e.ExitEvent? || e.ErrorEvent? || e.TerminatedEvent?
  }

  function TerminalEvent(status: Status, exitCode: Option<int>, lastId: nat): (e: Option<Event>)
    ensures e.None? <==> status == Pending || status == Running
    ensures e.Some? ==> IsTerminal(e.value) && e.value.id == lastId
    ensures (e.Some? && e.value.ExitEvent?) <==> (status == Completed || (status == Failed && exitCode.Some?))
    ensures (e.Some? && e.value.ErrorEvent?) <==> (status == Failed && exitCode.None?)
    ensures (e.Some? && e.value.TerminatedEvent?) <==> status == Terminated
    ensures e.Some? && e.value.ExitEvent? ==> e.value.code == exitCode
  {
    match status
    case Terminated => Some(TerminatedEvent(lastId))
    case Failed => if exitCode.None? then Some(ErrorEvent(lastId)) else Some(ExitEvent(lastId, exitCode))
    case Completed => Some(ExitEvent(lastId, exitCode))
    case Pending => None
    case Running => None
  }

  // ---- All rows ----

  function FormatRows(rows: seq<LogRow>, lastTurn: Option<nat>): seq<Event> {
    if rows == [] then []
    else EventsOf(rows[0], lastTurn) + FormatRows(rows[1..], TurnAfter(rows[0], lastTurn))
  }

  function TurnAfterRows(rows: seq<LogRow>, lastTurn: Option<nat>): Option<nat> {
    if rows == [] then lastTurn else TurnAfterRows(rows[1..], TurnAfter(rows[0], lastTurn))
  }

  lemma {:induction false} FormatRowsAppend(a: seq<LogRow>, b: seq<LogRow>, lastTurn: Option<nat>)
    ensures FormatRows(a + b, lastTurn) == FormatRows(a, lastTurn) + FormatRows(b, TurnAfterRows(a, lastTurn))
    ensures TurnAfterRows(a + b, lastTurn) == TurnAfterRows(b, TurnAfterRows(a, lastTurn))
  {
    if a == [] {
      assert a + b == b;
    } else {
      assert (a + b)[0] == a[0] && (a + b)[1..] == a[1..] + b;
      FormatRowsAppend(a[1..], b, TurnAfter(a[0], lastTurn));
      Associative(EventsOf(a[0], lastTurn), FormatRows(a[1..], TurnAfter(a[0], lastTurn)),
        FormatRows(b, TurnAfterRows(a, lastTurn)));
    }
  }

  function RowsOnly(events: seq<Event>): seq<Event> {
    if events == [] then []
    else (if events[0].IsRow() then [events[0]] else []) + RowsOnly(events[1..])
  }

  lemma {:induction false} RowsOnlyAppend(a: seq<Event>, b: seq<Event>)
    ensures RowsOnly(a + b) == RowsOnly(a) + RowsOnly(b)
  {
    if a == [] {
      assert a + b == b;
    } else {
      assert (a + b)[0] == a[0] && (a + b)[1..] == a[1..] + b;
      RowsOnlyAppend(a[1..], b);
      Associative(if a[0].IsRow() then [a[0]] else [], RowsOnly(a[1..]), RowsOnly(b));
    }
  }

  function RowEvents(rows: seq<LogRow>): seq<Event> {
    seq(|rows|, i requires 0 <= i < |rows| => RowEvent(rows[i]))
  }

  /** Erasing turn_start leaves one event per row, in row order. */
  lemma {:induction false} OneEventPerRow(rows: seq<LogRow>, lastTurn: Option<nat>)
    ensures RowsOnly(FormatRows(rows, lastTurn)) == RowEvents(rows)
  {
    if rows != [] {
      var rest := FormatRows(rows[1..], TurnAfter(rows[0], lastTurn));
      OneEventPerRow(rows[1..], TurnAfter(rows[0], lastTurn));
      RowsOnlyAppend(EventsOf(rows[0], lastTurn), rest);
      assert RowsOnly(EventsOf(rows[0], lastTurn)) == [RowEvent(rows[0])];
    }
  }

  /** The turn of the latest output row that has one; the rule that needs no running state. */
  function LatestTurn(rows: seq<LogRow>): Option<nat> {
    if rows == [] then None
    else
      var row := rows[|rows| - 1];
      if row.kind == OutputKind && row.turnId.Some? then row.turnId else LatestTurn(rows[..|rows| - 1])
  }

  lemma {:induction false} TurnAfterIsLatest(rows: seq<LogRow>)
    ensures TurnAfterRows(rows, None) == LatestTurn(rows)
  {
    if rows != [] {
      var n := |rows| - 1;
      TurnAfterIsLatest(rows[..n]);
      FormatRowsAppend(rows[..n], [rows[n]], None);
      assert rows == rows[..n] + [rows[n]] && [rows[n]][1..] == [];
      assert TurnAfterRows([rows[n]], LatestTurn(rows[..n])) == TurnAfter(rows[n], LatestTurn(rows[..n]));
    }
  }

  /**
   In a fresh stream turn_start stands before row k exactly when k is an output
   row whose turn differs from the latest one before it.
   */
  lemma {:induction false} TurnStartsExactlyAtChanges(rows: seq<LogRow>, k: nat)
    requires k < |rows|
    ensures FormatRows(rows, None)
         == FormatRows(rows[..k], None)
          + (EventsOf(rows[k], LatestTurn(rows[..k])) + FormatRows(rows[k + 1..], LatestTurn(rows[..k + 1])))
    ensures EventsOf(rows[k], LatestTurn(rows[..k]))
         == if rows[k].kind == OutputKind && rows[k].turnId.Some? && rows[k].turnId != LatestTurn(rows[..k])
            then [TurnStart(rows[k].id, rows[k].turnNumber), RowEvent(rows[k])]
            else [RowEvent(rows[k])]
  {
    var before, last := rows[..k], LatestTurn(rows[..k]);
    TurnAfterIsLatest(before);
    LatestTurnGrows(rows, k);
    SplitAt(rows, k);
  }

  lemma LatestTurnGrows(rows: seq<LogRow>, k: nat)
    requires k < |rows|
    ensures LatestTurn(rows[..k + 1]) == TurnAfter(rows[k], LatestTurn(rows[..k]))
  {
    assert rows[..k + 1][..k] == rows[..k];
  }

  lemma SplitAt(rows: seq<LogRow>, k: nat)
    requires k < |rows|
    ensures FormatRows(rows, None)
         == FormatRows(rows[..k], None)
          + (EventsOf(rows[k], TurnAfterRows(rows[..k], None))
             + FormatRows(rows[k + 1..], TurnAfter(rows[k], TurnAfterRows(rows[..k], None))))
  {
    var rest := rows[k..];
    assert rows == rows[..k] + rest;
    FormatRowsAppend(rows[..k], rest, None);
    assert rest[1..] == rows[k + 1..] && rest[0] == rows[k];
  }

  // ---- JSON payloads ----

  function Optional(n: Option<int>): Json {
    if n.None? then JNull else JNum(n.value)
  }

  function Number(n: Option<nat>): Json {
    if n.None? then JNull else JNum(n.value)
  }

  function TypeName(e: Event): string {
    match e
    case Start(_, _) => "start"
    case StageEvent(_, _, _, _, _) => "stage"
    case TurnStart(_, _) => "turn_start"
    case Output(_, _, _, _) => "output"
    case ExitEvent(_, _) => "exit"
    case ErrorEvent(_) => "error"
    case TerminatedEvent(_) => "terminated"
    case StaleEvent(_) => "stale"
  }

  /** The fields an event carries besides "type" and "id". */
  function Payload(e: Event): map<string, Json> {
    match e
    case Start(provider, sessionId) => map["provider" := JStr(provider), "session_id" := JStr(sessionId)]
    case StageEvent(_, stage, state, durationMs, message) =>
      map["stage" := JStr(stage), "state" := JStr(state)]
      + (if durationMs.Some? then map["duration_ms" := JNum(durationMs.value)] else map[])
      + (if message.Some? then map["message" := JStr(message.value)] else map[])
    case TurnStart(_, turn) => map["turn" := Number(turn)]
    case Output(_, stream, data, turn) => map["stream" := JStr(stream), "data" := JStr(data), "turn" := Number(turn)]
    case ExitEvent(_, code) => map["code" := Optional(code)]
    case ErrorEvent(_) => map["message" := JStr("Session failed")]
    case TerminatedEvent(_) => map["message" := JStr("Session terminated")]
    case StaleEvent(_) => map["message" := JStr("No output for 600s")]
  }

  function ToJson(e: Event): (j: Json)
    ensures j.JObj?
  {
    var body := if e.Start? then Payload(e) else Payload(e)["id" := JNum(e.id)];
    JObj(body["type" := JStr(TypeName(e))])
  }

  lemma {:induction false} PayloadKeys(e: Event)
    ensures "type" !in Payload(e) && "id" !in Payload(e)
  {
    assert "type"[0] == 't' && "type"[1] == 'y' && "type"[2] == 'p';
    assert "data"[0] == 'd' && "code"[0] == 'c' && "turn"[1] == 'u';
  }

  lemma RowTypeNames(e: Event)
    ensures TypeName(e) in {"stage", "output"} <==> e.IsRow()
  {
    assert "stage"[3] == 'g' && "start"[3] == 'r' && "stale"[3] == 'l' && "error"[0] == 'e' && "output"[0] == 'o';
  }
}
