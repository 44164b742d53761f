/** The payloads as the streaming page documents them, read back (site/docs/api/streaming.md). */
module Wire {
  import opened Prelude
  import opened Json
  import opened Protocol
  import opened StreamFormat

  // ---- Reading an event back ----

  function TextAt(fields: map<string, Json>, key: string): Option<string> {
    if key in fields && fields[key].JStr? then Some(fields[key].s) else None
  }

  function NatAt(fields: map<string, Json>, key: string): Option<nat> {
    if key in fields && fields[key].JNum? && fields[key].n >= 0 then Some(fields[key].n) else None
  }

  /** A number or null. */
  function CodeAt(fields: map<string, Json>, key: string): Option<int> {
    if key in fields && fields[key].JNum? then Some(fields[key].n) else None
  }

  /** The event an object stands for; it depends on nothing but the documented names. */
  function Decode(f: map<string, Json>): Option<Event> {
    var kind, id := Or(TextAt(f, "type"), ""), Or(NatAt(f, "id"), 0);
    if kind == "start" && "id" !in f then
      Some(Start(Or(TextAt(f, "provider"), ""), Or(TextAt(f, "session_id"), "")))
    else if kind == "stage" then
      Some(StageEvent(id, Or(TextAt(f, "stage"), ""), Or(TextAt(f, "state"), ""),
                      NatAt(f, "duration_ms"), TextAt(f, "message")))
    else if kind == "turn_start" then Some(TurnStart(id, NatAt(f, "turn")))
    else if kind == "output" then
      Some(Output(id, Or(TextAt(f, "stream"), ""), Or(TextAt(f, "data"), ""), NatAt(f, "turn")))
    else if kind == "exit" then Some(ExitEvent(id, CodeAt(f, "code")))
    else if kind == "error" && TextAt(f, "message") == Some("Session failed") then Some(ErrorEvent(id))
    else if kind == "terminated" && TextAt(f, "message") == Some("Session terminated") then Some(TerminatedEvent(id))
    else if kind == "stale" && TextAt(f, "message") == Some("No output for 600s") then Some(StaleEvent(id))
    else None
  }

  lemma {:induction false} KindsDiffer()
    ensures "start" != "stage" && "start" != "turn_start" && "start" != "output" && "start" != "exit"
    ensures "start" != "error" && "start" != "terminated" && "start" != "stale"
    ensures "stage" != "turn_start" && "stage" != "output" && "stage" != "exit" && "stage" != "error"
    ensures "stage" != "terminated" && "stage" != "stale"
    ensures "turn_start" != "output" && "turn_start" != "exit" && "turn_start" != "error"
    ensures "turn_start" != "terminated" && "turn_start" != "stale"
    ensures "output" != "exit" && "output" != "error" && "output" != "terminated" && "output" != "stale"
    ensures "exit" != "error" && "exit" != "terminated" && "exit" != "stale"
    ensures "error" != "terminated" && "error" != "stale" && "terminated" != "stale"
  {
    assert "start"[3] == 'r' && "stage"[3] == 'g' && "stale"[3] == 'l' && "turn_start"[1] == 'u';
    assert "terminated"[1] == 'e' && "error"[0] == 'e' && "error"[1] == 'r' && "exit"[1] == 'x' && "output"[0] == 'o';
  }

  lemma {:induction false} NamesDiffer()
    ensures "id" !in {"type", "stage", "state", "duration_ms", "message", "turn", "stream", "data", "code"}
    ensures "id" !in {"provider", "session_id"}
    ensures "type" !in {"stage", "state", "duration_ms", "message", "turn", "stream", "data", "code"}
    ensures "type" !in {"provider", "session_id"}
    ensures "stage" !in {"state", "duration_ms", "message"} && "state" !in {"duration_ms", "message"}
    ensures "duration_ms" != "message" && "provider" != "session_id"
    ensures "turn" !in {"stream", "data"} && "stream" != "data"
  {
    assert |"id"| == 2 && |"type"| == 4 && "type"[0] == 't' && "type"[1] == 'y' && "turn"[1] == 'u';
    assert |"stage"| == 5 && |"state"| == 5 && "stage"[3] == 'g' && "state"[3] == 't' && |"message"| == 7;
    assert |"duration_ms"| == 11 && |"stream"| == 6 && "data"[0] == 'd' && "code"[0] == 'c';
    assert |"provider"| == 8 && |"session_id"| == 10;
  }

  lemma {:induction false} RowRoundTrip(e: Event)
    requires e.IsRow()
    ensures Decode(ToJson(e).fields) == Some(e)
  {
    KindsDiffer();
    NamesDiffer();
    PayloadKeys(e);
  }

  lemma {:induction false} StartRoundTrip(e: Event)
    requires e.Start? || e.TurnStart?
    ensures Decode(ToJson(e).fields) == Some(e)
  {
    KindsDiffer();
    NamesDiffer();
    PayloadKeys(e);
  }

  lemma {:induction false} EndRoundTrip(e: Event)
    requires IsTerminal(e) || e.StaleEvent?
    ensures Decode(ToJson(e).fields) == Some(e)
  {
    KindsDiffer();
    NamesDiffer();
    PayloadKeys(e);
  }

  /** Nothing an event holds is lost or renamed on the wire. */
  lemma {:induction false} WireRoundTrip(e: Event)
    ensures Decode(ToJson(e).fields) == Some(e)
  {
    if e.IsRow() {
      RowRoundTrip(e);
    } else if e.Start? || e.TurnStart? {
      StartRoundTrip(e);
    } else {
      EndRoundTrip(e);
    }
  }

  // ---- What a row and an end look like there ----

  /** A row's object: its stage and state, with a duration if there is one and the text of a failure; or its output. */
  lemma {:induction false} RowOnTheWire(row: LogRow)
    ensures var f := ToJson(RowEvent(row)).fields;
            && NatAt(f, "id") == Some(row.id)
            && TextAt(f, "type") == Some(if row.kind == StageKind then "stage" else "output")
            && (row.kind == StageKind ==>
                  && TextAt(f, "stage") == Some(row.stage) && TextAt(f, "state") == Some(row.state)
                  && NatAt(f, "duration_ms") == row.durationMs
                  && TextAt(f, "message") == if row.state == "failed" && row.data != "" then Some(row.data) else None)
            && (row.kind == OutputKind ==>
                  && TextAt(f, "stream") == Some(row.stream) && TextAt(f, "data") == Some(row.data)
                  && NatAt(f, "turn") == row.turnNumber)
  {
    KindsDiffer();
    NamesDiffer();
    PayloadKeys(RowEvent(row));
  }

  /** A turn_start carries the id of the row it stands before, and that row's turn. */
  lemma {:induction false} TurnStartOnTheWire(row: LogRow, lastTurn: Option<nat>)
    requires OpensTurn(row, lastTurn)
    ensures var f := ToJson(EventsOf(row, lastTurn)[0]).fields;
            && TextAt(f, "type") == Some("turn_start")
            && NatAt(f, "id") == Some(row.id) && NatAt(f, "turn") == row.turnNumber
  {
    NamesDiffer();
  }

  /** What a client reads of a session's end: its exit code, if there is one, and otherwise how it ended. */
  lemma {:induction false} EndOnTheWire(status: Status, exitCode: Option<int>, lastId: nat)
    requires status in {Completed, Failed, Terminated}
    ensures var f := ToJson(TerminalEvent(status, exitCode, lastId).value).fields;
            && NatAt(f, "id") == Some(lastId)
            && (status == Terminated ==> TextAt(f, "type") == Some("terminated"))
            && (status == Failed && exitCode == None ==> TextAt(f, "type") == Some("error"))
            && (status == Completed || (status == Failed && exitCode != None) ==>
                  TextAt(f, "type") == Some("exit") && CodeAt(f, "code") == exitCode)
  {
    NamesDiffer();
  }
}
