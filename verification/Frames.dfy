/** The SSE frames the stream view writes, and the cursor it reads (views/sessions/stream.py). */
module Frames {
  import opened Prelude
  import opened Json
  import opened Decimal
  import opened StreamFormat
  import opened LogTail
  import opened TailProperties

  /** The Last-Event-ID header wins over `since`; an empty header counts as absent; negative cursors are 0. */
  function SinceOf(header: Option<string>, query: Option<string>): (r: Result<nat, string>)
    ensures header.Some? && header.value != "" && ParseInt(header.value).Some? ==>
              r == Ok(Max(0, ParseInt(header.value).value))
    ensures r.Err? <==>
              ParseInt(if header.Some? && header.value != "" then header.value
                       else if query.Some? then query.value else "0").None?
  {
    var raw := if header.Some? && header.value != "" then header.value
               else if query.Some? then query.value else "0";
    match ParseInt(raw)
    case None => Err("since must be an integer")
    case Some(n) => Ok(Max(0, n))
  }

  lemma {:induction false} SinceOfHeader(n: nat, query: Option<string>)
    ensures SinceOf(Some(Dec(n)), query) == Ok(n)
  {
    ParseIntOfDec(n);
  }

  lemma {:induction false} SinceOfQuery(n: nat)
    ensures SinceOf(Some(""), Some(Dec(n))) == Ok(n)
  {
    ParseIntOfDec(n);
  }

  lemma {:induction false} SinceOfNothing()
    ensures SinceOf(None, None) == Ok(0)
  {
    ParseIntOfDec(0);
    assert Dec(0) == "0";
  }

  function Printed(codec: Codec, e: Event): string {
    codec.dumps(ToJson(e))
  }

  function IdLine(item: Item): string {
    if CommitsId(item) then "id: " + Dec(item.event.id) else ""
  }

  function BodyLine(codec: Codec, item: Item): string {
    match item
    case Heartbeat => ": heartbeat"
    case Ev(e) => "data: " + Printed(codec, e)
  }

  function FrameText(codec: Codec, item: Item): string {
    if CommitsId(item) then IdLine(item) + "\n" + (BodyLine(codec, item) + "\n" + "\n")
    else BodyLine(codec, item) + "\n" + "\n"
  }

  function StreamText(codec: Codec, items: seq<Item>): string {
    if items == [] then "" else FrameText(codec, items[0]) + StreamText(codec, items[1..])
  }

  lemma {:induction false} StreamTextAppend(codec: Codec, a: seq<Item>, b: seq<Item>)
    ensures StreamText(codec, a + b) == StreamText(codec, a) + StreamText(codec, b)
  {
    if a == [] {
      assert a + b == b;
    } else {
      assert (a + b)[0] == a[0] && (a + b)[1..] == a[1..] + b;
      StreamTextAppend(codec, a[1..], b);
      Associative(FrameText(codec, a[0]), StreamText(codec, a[1..]), StreamText(codec, b));
    }
  }

  lemma JsonFields(e: Event)
    ensures "type" in ToJson(e).fields && ToJson(e).fields["type"] == JStr(TypeName(e))
    ensures !e.Start? ==> "id" in ToJson(e).fields && ToJson(e).fields["id"] == JNum(e.id)
    ensures e.Start? ==> "id" !in ToJson(e).fields
    ensures TypeName(e) == "turn_start" <==> e.TurnStart?
  {
    PayloadKeys(e);
    assert "terminated"[0] == 't' && "terminated"[1] == 'e';
  }

  /** One event of the tail: it is read back from its JSON to decide whether to write an id line. */
  method WriteFrame(codec: Codec, item: Item) returns (text: string)
    requires codec.Valid()
    ensures text == FrameText(codec, item)
  {
    match item {
      case Heartbeat =>
        text := ": heartbeat" + "\n" + "\n";
      case Ev(e) =>
        var event := codec.dumps(ToJson(e));
        var payload := codec.loads(event).value;
        JsonFields(e);
        text := "";
        if "id" in payload.fields && payload.fields["id"] != JNum(0) && payload.fields["type"] != JStr("turn_start") {
          var logId := payload.fields["id"].n;
          text := "id: " + Dec(logId) + "\n";
        }
        text := text + ("data: " + event + "\n" + "\n");
    }
  }

  lemma {:induction false} OneMoreFrame(codec: Codec, items: seq<Item>, item: Item)
    ensures StreamText(codec, items + [item]) == StreamText(codec, items) + FrameText(codec, item)
  {
    StreamTextAppend(codec, items, [item]);
    assert [item][1..] == [];
    assert StreamText(codec, [item]) == FrameText(codec, item) + "";
  }

  lemma NextFrame(codec: Codec, events: seq<Item>, i: nat)
    requires i < |events|
    ensures StreamText(codec, events[..i + 1]) == StreamText(codec, events[..i]) + FrameText(codec, events[i])
  {
    assert events[..i + 1] == events[..i] + [events[i]];
    OneMoreFrame(codec, events[..i], events[i]);
  }

  lemma StartFrame(codec: Codec, start: Event)
    requires start.Start?
    ensures StreamText(codec, [Ev(start)]) == "data: " + codec.dumps(ToJson(start)) + "\n" + "\n"
  {
    OneMoreFrame(codec, [], Ev(start));
    assert [] + [Ev(start)] == [Ev(start)];
    assert StreamText(codec, []) + FrameText(codec, Ev(start)) == FrameText(codec, Ev(start));
  }

  method WriteStart(codec: Codec, start: Event) returns (text: string)
    requires start.Start?
    ensures text == StreamText(codec, [Ev(start)])
  {
    StartFrame(codec, start);
    return "data: " + codec.dumps(ToJson(start)) + "\n" + "\n";
  }

  method EventGenerator(codec: Codec, provider: string, sessionId: string, events: seq<Item>) returns (text: string)
    requires codec.Valid()
    ensures text == StreamText(codec, [Ev(Start(provider, sessionId))] + events)
  {
    var start := Start(provider, sessionId);
    text := WriteStart(codec, start);
    for i := 0 to |events|
      invariant text == StreamText(codec, [Ev(start)]) + StreamText(codec, events[..i])
    {
      var frame := WriteFrame(codec, events[i]);
      NextFrame(codec, events, i);
      Associative(StreamText(codec, [Ev(start)]), StreamText(codec, events[..i]), frame);
      text := text + frame;
    }
    assert events[..|events|] == events;
    StreamTextAppend(codec, [Ev(start)], events);
  }
}
