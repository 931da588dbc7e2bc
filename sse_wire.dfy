/**
 * The Server-Sent-Events wire format of the two SSE services.
 *
 * The joke service frames each event as an optional `id:` line, an optional
 * `event:` line, one `data:` line and a blank line; the analysis service
 * writes the JSON text followed by a blank line. Both are checked against a
 * reference definition of how a browser reads an event stream: the line
 * splitting of section 9.2.5 (Parsing an event stream) and the field dispatch
 * of section 9.2.6 (Interpreting an event stream) of the WHATWG HTML Living
 * Standard. The JSON text is an opaque string: `json.dumps` without `indent`
 * escapes line breaks, so that text never holds CR or LF.
 */
module SseWire {
  import opened Wrappers
  import opened Strings

  predicate NoLineBreak(s: string) {
    '\n' !in s && '\r' !in s
  }

  // ---------------------------------------------------------------------
  // Encoders
  // ---------------------------------------------------------------------

  /** The lines the joke service's `sse_event` collects before joining them with LF. */
  function FrameLines(event: string, data: string, eventId: Option<string>): seq<string> {
    (if eventId.Some? then ["id: " + eventId.value] else [])
    + (if event != "" then ["event: " + event] else [])
    + ["data: " + data, ""]
  }

  /**
   * The joke service's `sse_event(event, data, event_id)`: the lines joined
   * with LF, plus a final LF. `data` is the JSON text of the payload.
   */
  function SseEvent(event: string, data: string, eventId: Option<string> := None): (frame: string)
    ensures frame == (if eventId.Some? then "id: " + eventId.value + "\n" else "")
                     + (if event != "" then "event: " + event + "\n" else "")
                     + "data: " + data + "\n\n"
  {
    FrameLayout(event, data, eventId);
    Join(FrameLines(event, data, eventId), '\n') + "\n"
  }

  lemma FrameLayout(event: string, data: string, eventId: Option<string>)
    ensures Join(FrameLines(event, data, eventId), '\n')
         == (if eventId.Some? then "id: " + eventId.value + "\n" else "")
            + (if event != "" then "event: " + event + "\n" else "")
            + "data: " + data + "\n"
  {
    var tail := ["data: " + data, ""];
    JoinCons("data: " + data, [""], '\n');
    assert Join(tail, '\n') == "data: " + data + "\n";
    var mid := (if event != "" then ["event: " + event] else []) + tail;
    var midText := (if event != "" then "event: " + event + "\n" else "") + "data: " + data + "\n";
    if event != "" {
      JoinCons("event: " + event, tail, '\n');
    } else {
      assert mid == tail;
    }
    assert Join(mid, '\n') == midText;
    if eventId.Some? {
      JoinCons("id: " + eventId.value, mid, '\n');
      assert FrameLines(event, data, eventId) == ["id: " + eventId.value] + mid;
    } else {
      assert FrameLines(event, data, eventId) == mid;
    }
  }

  lemma JoinCons(x: string, rest: seq<string>, sep: char)
    requires |rest| >= 1
    ensures Join([x] + rest, sep) == x + [sep] + Join(rest, sep)
  {
  }

  /** The analysis service's `sse_event(data)`: the JSON text followed by a blank line. */
  function SseJsonFrame(json: string): (frame: string)
    ensures |frame| == |json| + 2 && frame[..|json|] == json && frame[|json|..] == "\n\n"
  {
    json + "\n\n"
  }

  /**
   * The frame the analysis service evidently means to send: the JSON text as
   * the `data:` field of an unnamed event, which a client reads back intact.
   */
  function SseDataFrame(json: string): (frame: string)
    ensures NoLineBreak(json) ==> Interpret(frame) == [Event("message", json, "")]
  {
    if NoLineBreak(json) then
      FrameRoundTrip(Fresh, "", json, None);
      assert SseEvent("", json, None)[0] == 'd';
      SseEvent("", json, None)
    else
      SseEvent("", json, None)
  }

  /** The keep-alive both services write after half a second without an event. */
  const KeepAliveFrame: string := ": keep-alive\n\n"

  // ---------------------------------------------------------------------
  // Reference: how a client reads the stream (WHATWG HTML 9.2.5 and 9.2.6)
  // ---------------------------------------------------------------------

  /** A dispatched event as a client's `onmessage`/`addEventListener` sees it. */
  datatype Event = Event(eventType: string, data: string, lastEventId: string)

  /** The event type, data and last event ID buffers of the stream parser. */
  datatype Buffers = Buffers(eventType: string, data: string, lastEventId: string) {
    /** Between two events: nothing pending apart from the last event ID. */
    predicate Idle() { eventType == "" && data == "" }
  }

  const Fresh: Buffers := Buffers("", "", "")

  /**
   * The stream cut at every CRLF, LF or CR. Every element but the last is a
   * complete line; the last is the text after the final line break.
   */
  function Lines(s: string): (ls: seq<string>)
    ensures |ls| >= 1
  {
    if |s| == 0 then [""]
    else
      var crlf := s[0] == '\r' && |s| >= 2 && s[1] == '\n';
      var rest := Lines(s[if crlf then 2 else 1..]);
      if s[0] == '\r' || s[0] == '\n' then [""] + rest
      else [[s[0]] + rest[0]] + rest[1..]
  }

  /** The field name and value of a line that is not a comment: split at the first colon, one space dropped. */
  function FieldOf(line: string): (nv: (string, string))
  {
    var name := Split(line, ':')[0];
    SplitFirstIsPrefix(line, ':');
    if |name| == |line| then (line, "")
    else
      var v := line[|name| + 1..];
      (name, if |v| > 0 && v[0] == ' ' then v[1..] else v)
  }

  /** Processing one field; `retry` (the reconnection time) and unknown names leave the buffers as they are. */
  function ProcessField(b: Buffers, name: string, value: string): Buffers {
    if name == "event" then b.(eventType := value)
    else if name == "data" then b.(data := b.data + value + "\n")
    else if name == "id" then (if '\0' in value then b else b.(lastEventId := value))
    else b
  }

  /** A blank line: dispatch the pending event, if it has data, and clear the event type and data buffers. */
  function Dispatch(b: Buffers): (Buffers, seq<Event>) {
    var cleared := b.(eventType := "", data := "");
    if b.data == "" then (cleared, [])
    else
      var data := if b.data[|b.data| - 1] == '\n' then b.data[..|b.data| - 1] else b.data;
      (cleared, [Event(if b.eventType == "" then "message" else b.eventType, data, b.lastEventId)])
  }

  function ProcessLine(b: Buffers, line: string): (Buffers, seq<Event>) {
    if line == "" then Dispatch(b)
    else if line[0] == ':' then (b, [])
    else
      var nv := FieldOf(line);
      (ProcessField(b, nv.0, nv.1), [])
  }

  function ProcessLines(b: Buffers, lines: seq<string>): (Buffers, seq<Event>)
    decreases |lines|
  {
    if |lines| == 0 then (b, [])
    else
      var first := ProcessLine(b, lines[0]);
      var rest := ProcessLines(first.0, lines[1..]);
      (rest.0, first.1 + rest.1)
  }

  /** Reading `s` from buffers `b`: every complete line is processed, an unterminated last line is dropped. */
  function InterpretFrom(b: Buffers, s: string): (Buffers, seq<Event>) {
    var ls := Lines(s);
    ProcessLines(b, ls[..|ls| - 1])
  }

  /** The events a client dispatches for a whole stream; one leading byte order mark is ignored. */
  function Interpret(stream: string): seq<Event> {
    var s := if |stream| > 0 && stream[0] == '\U{FEFF}' then stream[1..] else stream;
    InterpretFrom(Fresh, s).1
  }

  // ---------------------------------------------------------------------
  // Lemmas about the reference
  // ---------------------------------------------------------------------

  /** The first piece of a split is a prefix, cut at the first separator if there is one. */
  lemma {:induction false} SplitFirstIsPrefix(s: string, sep: char)
    ensures var p := Split(s, sep)[0];
      |p| <= |s| && p == s[..|p|] && (|p| < |s| ==> s[|p|] == sep)
  {
    if |s| > 0 {
      SplitFirstIsPrefix(s[1..], sep);
    }
  }

  /** Without CR, the line splitting of section 9.2.5 is a split at LF. */
  lemma {:induction false} LinesWithoutCR(s: string)
    requires '\r' !in s
    ensures Lines(s) == Split(s, '\n')
  {
    if |s| > 0 {
      assert '\r' !in s[1..];
      LinesWithoutCR(s[1..]);
    }
  }

  /** Processing a concatenation of line lists processes one list after the other. */
  lemma {:induction false} ProcessLinesAppend(b: Buffers, xs: seq<string>, ys: seq<string>)
    ensures var first := ProcessLines(b, xs);
            var second := ProcessLines(first.0, ys);
            ProcessLines(b, xs + ys) == (second.0, first.1 + second.1)
    decreases |xs|
  {
    if |xs| > 0 {
      assert (xs + ys)[1..] == xs[1..] + ys;
      assert (xs + ys)[0] == xs[0];
      var head := ProcessLine(b, xs[0]);
      ProcessLinesAppend(head.0, xs[1..], ys);
      var rest := ProcessLines(head.0, xs[1..]);
      var second := ProcessLines(rest.0, ys);
      assert ProcessLines(b, xs) == (rest.0, head.1 + rest.1);
      assert head.1 + (rest.1 + second.1) == (head.1 + rest.1) + second.1;
    } else {
      assert xs + ys == ys;
      assert ProcessLines(b, xs) == (b, []);
      assert ProcessLines(b, ys).1 == [] + ProcessLines(b, ys).1;
    }
  }

  /** A CR-free chunk that ends in LF is read completely, whatever follows it. */
  lemma ReadAcrossChunks(b: Buffers, a: string, c: string)
    requires |a| >= 1 && a[|a| - 1] == '\n' && '\r' !in a && '\r' !in c
    ensures var first := InterpretFrom(b, a);
            var second := InterpretFrom(first.0, c);
            InterpretFrom(b, a + c) == (second.0, first.1 + second.1)
  {
    var a' := a[..|a| - 1];
    assert a == a' + ['\n'] + "";
    assert a + c == a' + ['\n'] + c;
    LinesWithoutCR(a);
    LinesWithoutCR(c);
    LinesWithoutCR(a + c);
    SplitConcat(a', "", '\n');
    SplitConcat(a', c, '\n');
    var pa, pc := Split(a', '\n'), Split(c, '\n');
    assert Lines(a) == pa + [""];
    assert Lines(a)[..|Lines(a)| - 1] == pa;
    assert Lines(a + c) == pa + pc;
    assert (pa + pc)[..|pa + pc| - 1] == pa + pc[..|pc| - 1];
    ProcessLinesAppend(b, pa, pc[..|pc| - 1]);
  }

  /** A line `name: value` with a colon-free, non-empty name is the field (name, value). */
  lemma FieldOfNamedLine(name: string, value: string)
    requires name != "" && ':' !in name
    ensures FieldOf(name + ": " + value) == (name, value)
    ensures name == "id" ==> "id: " + value == name + ": " + value
    ensures name == "event" ==> "event: " + value == name + ": " + value
    ensures name == "data" ==> "data: " + value == name + ": " + value
  {
    var line := name + ": " + value;
    assert line == name + [':'] + (" " + value);
    SplitConcat(name, " " + value, ':');
    SplitWithoutSep(name, ':');
    assert line[|name| + 1..] == " " + value;
  }

  // ---------------------------------------------------------------------
  // The encoders against the reference
  // ---------------------------------------------------------------------

  /** The last event ID after a frame: its `id` value unless absent or holding NUL (ignored by 9.2.6). */
  function NextEventId(lastEventId: string, eventId: Option<string>): string {
    if eventId.Some? && '\0' !in eventId.value then eventId.value else lastEventId
  }

  /** The event type a client reports for a frame's `event:` value; no `event:` line means "message". */
  function EventType(event: string): string {
    if event == "" then "message" else event
  }

  /** Processing a one-line list is processing that line. */
  lemma OneLine(b: Buffers, line: string)
    ensures ProcessLines(b, [line]) == ProcessLine(b, line)
  {
    var lines := [line];
    assert lines[1..] == [];
    var e: seq<Event> := ProcessLine(b, line).1;
    assert e + [] == e;
  }

  /** A field line `name: value` updates the buffers as that field and dispatches nothing. */
  lemma FieldLine(b: Buffers, name: string, value: string)
    requires name != "" && ':' !in name
    ensures ProcessLines(b, [name + ": " + value]) == (ProcessField(b, name, value), [])
    ensures name == "id" ==> "id: " + value == name + ": " + value
    ensures name == "event" ==> "event: " + value == name + ": " + value
    ensures name == "data" ==> "data: " + value == name + ": " + value
  {
    var line := name + ": " + value;
    assert line[0] == name[0] && line != "";
    FieldOfNamedLine(name, value);
    OneLine(b, line);
  }

  /** A `data:` line followed by a blank line dispatches exactly that data, with the pending type and id. */
  lemma DataThenBlank(b: Buffers, data: string)
    requires b.data == ""
    ensures ProcessLines(b, ["data: " + data, ""])
         == (b.(eventType := "", data := ""), [Event(EventType(b.eventType), data, b.lastEventId)])
  {
    var b1 := b.(data := data + "\n");
    DataLine(b, data);
    BlankAfterData(b1, data);
    ProcessLinesAppend(b, ["data: " + data], [""]);
    assert ["data: " + data] + [""] == ["data: " + data, ""];
    var ev := [Event(EventType(b.eventType), data, b.lastEventId)];
    assert [] + ev == ev;
    assert b1.(eventType := "", data := "") == b.(eventType := "", data := "");
  }

  lemma DataLine(b: Buffers, data: string)
    requires b.data == ""
    ensures ProcessLines(b, ["data: " + data]) == (b.(data := data + "\n"), [])
  {
    FieldLine(b, "data", data);
    assert b.data + data + "\n" == data + "\n";
  }

  lemma BlankAfterData(b: Buffers, data: string)
    requires b.data == data + "\n"
    ensures ProcessLines(b, [""])
         == (b.(eventType := "", data := ""), [Event(EventType(b.eventType), data, b.lastEventId)])
  {
    var buf := data + "\n";
    assert buf[..|buf| - 1] == data;
    OneLine(b, "");
  }

  /**
   * Round trip: a joke-service frame whose parts hold no line break is read
   * as exactly one event carrying the given event name, data and id.
   */
  lemma FrameRoundTrip(b: Buffers, event: string, data: string, eventId: Option<string>)
    requires b.Idle()
    requires NoLineBreak(event) && NoLineBreak(data)
    requires eventId.Some? ==> NoLineBreak(eventId.value)
    ensures InterpretFrom(b, SseEvent(event, data, eventId))
         == (Fresh.(lastEventId := NextEventId(b.lastEventId, eventId)),
             [Event(EventType(event), data, NextEventId(b.lastEventId, eventId))])
  {
    FrameCompleteLines(event, data, eventId);
    ProcessFrameLines(b, event, data, eventId);
  }

  /** The complete lines of a frame are exactly the lines `sse_event` joined. */
  lemma FrameCompleteLines(event: string, data: string, eventId: Option<string>)
    requires NoLineBreak(event) && NoLineBreak(data)
    requires eventId.Some? ==> NoLineBreak(eventId.value)
    ensures var ls := Lines(SseEvent(event, data, eventId));
            ls[..|ls| - 1] == FrameLines(event, data, eventId)
  {
    var frame := SseEvent(event, data, eventId);
    var fl := FrameLines(event, data, eventId);
    var ls := fl + [""];
    forall i | 0 <= i < |ls| ensures '\n' !in ls[i] { }
    JoinAppend(fl, [""], '\n');
    FrameLayout(event, data, eventId);
    assert frame == Join(ls, '\n');
    SplitJoin(ls, '\n');
    assert '\r' !in frame;
    LinesWithoutCR(frame);
  }

  /**
   * The line structure of a frame: an `id` field first exactly when an id is
   * given, an `event` field exactly when the name is non-empty, then the one
   * and only `data` field, then the blank line.
   */
  lemma FrameFields(event: string, data: string, eventId: Option<string>)
    requires NoLineBreak(event) && NoLineBreak(data)
    requires eventId.Some? ==> NoLineBreak(eventId.value)
    ensures var all := Lines(SseEvent(event, data, eventId));
            var ls := all[..|all| - 1];
            && |ls| == 2 + (if eventId.Some? then 1 else 0) + (if event != "" then 1 else 0)
            && (eventId.Some? <==> FieldOf(ls[0]).0 == "id")
            && (eventId.Some? ==> FieldOf(ls[0]).1 == eventId.value)
            && (event != "" <==> exists i :: 0 <= i < |ls| - 2 && FieldOf(ls[i]).0 == "event")
            && (event != "" ==> FieldOf(ls[|ls| - 3]) == ("event", event))
            && FieldOf(ls[|ls| - 2]) == ("data", data) && ls[|ls| - 1] == ""
            && forall i :: 0 <= i < |ls| - 2 ==> FieldOf(ls[i]).0 != "data"
  {
    FrameCompleteLines(event, data, eventId);
    var ls := FrameLines(event, data, eventId);
    var n := |ls|;
    FieldOfNamedLine("data", data);
    assert ls[n - 2] == "data: " + data && ls[n - 1] == "";
    if eventId.Some? {
      FieldOfNamedLine("id", eventId.value);
      assert ls[0] == "id: " + eventId.value;
    }
    if event != "" {
      FieldOfNamedLine("event", event);
      assert ls[n - 3] == "event: " + event;
    }
    if eventId.None? {
      assert FieldOf(ls[0]).0 in {"event", "data"};
    }
    if event == "" {
      assert forall i :: 0 <= i < n - 2 ==> i == 0 && ls[i] == "id: " + eventId.value;
    }
  }

  /** Processing the lines of one frame from idle buffers dispatches its one event. */
  lemma ProcessFrameLines(b: Buffers, event: string, data: string, eventId: Option<string>)
    requires b.Idle()
    ensures ProcessLines(b, FrameLines(event, data, eventId))
         == (Fresh.(lastEventId := NextEventId(b.lastEventId, eventId)),
             [Event(EventType(event), data, NextEventId(b.lastEventId, eventId))])
  {
    var idLines := if eventId.Some? then ["id: " + eventId.value] else [];
    var eventLines := if event != "" then ["event: " + event] else [];
    var tail := ["data: " + data, ""];
    assert FrameLines(event, data, eventId) == idLines + (eventLines + tail);
    var id := NextEventId(b.lastEventId, eventId);
    var b1 := b.(lastEventId := id);
    IdLines(b, eventId);
    var b2 := b1.(eventType := event);
    EventLines(b1, event);
    DataThenBlank(b2, data);
    var ev := [Event(EventType(event), data, id)];
    assert ProcessLines(b2, tail) == (Fresh.(lastEventId := id), ev);
    ProcessLinesAppend(b1, eventLines, tail);
    assert ProcessLines(b1, eventLines + tail) == (Fresh.(lastEventId := id), [] + ev);
    ProcessLinesAppend(b, idLines, eventLines + tail);
    assert [] + ([] + ev) == ev;
  }

  /** The optional `id:` line sets the last event ID buffer (unless the value holds NUL). */
  lemma IdLines(b: Buffers, eventId: Option<string>)
    ensures ProcessLines(b, if eventId.Some? then ["id: " + eventId.value] else [])
         == (b.(lastEventId := NextEventId(b.lastEventId, eventId)), [])
  {
    if eventId.Some? {
      FieldLine(b, "id", eventId.value);
    }
  }

  /** The optional `event:` line sets the event type buffer; without it an empty buffer stays empty. */
  lemma EventLines(b: Buffers, event: string)
    requires b.eventType == ""
    ensures ProcessLines(b, if event != "" then ["event: " + event] else []) == (b.(eventType := event), [])
  {
    if event != "" {
      FieldLine(b, "event", event);
    }
  }

  /** A blank line with nothing pending dispatches nothing. */
  lemma BlankLineWhenIdle(b: Buffers)
    requires b.Idle()
    ensures ProcessLines(b, [""]) == (b, [])
  {
    OneLine(b, "");
  }

  /** The keep-alive comment dispatches nothing and leaves idle buffers idle. */
  lemma KeepAliveDispatchesNothing(b: Buffers, frame: string)
    requires b.Idle() && frame == KeepAliveFrame
    ensures InterpretFrom(b, frame) == (b, [])
  {
    var comment := ": keep-alive";
    assert frame == comment + "\n\n";
    CommentFrameDispatchesNothing(b, comment);
  }

  /** A frame made of one line and a blank line has exactly those two complete lines. */
  lemma OneLineFrame(line: string)
    requires NoLineBreak(line)
    ensures var ls := Lines(line + "\n\n"); ls[..|ls| - 1] == [line, ""]
  {
    var frame := line + "\n\n";
    var ls := [line, "", ""];
    JoinCons("", [""], '\n');
    JoinCons(line, ["", ""], '\n');
    assert Join(ls, '\n') == frame;
    SplitJoin(ls, '\n');
    LinesWithoutCR(frame);
  }

  /** Any frame made of one comment line and a blank line dispatches nothing. */
  lemma CommentFrameDispatchesNothing(b: Buffers, comment: string)
    requires b.Idle() && NoLineBreak(comment) && |comment| > 0 && comment[0] == ':'
    ensures InterpretFrom(b, comment + "\n\n") == (b, [])
  {
    OneLineFrame(comment);
    assert ProcessLine(b, comment) == (b, []);
    OneLine(b, comment);
    BlankLineWhenIdle(b);
    ProcessLinesAppend(b, [comment], [""]);
    assert [comment] + [""] == [comment, ""];
  }

  /**
   * As written, the analysis service's frame is a bare JSON object line. A
   * client takes the text up to its first colon (`{"status"`, say) as an
   * unknown field name, so the frame dispatches no event at all.
   */
  lemma JsonFrameDispatchesNothing(b: Buffers, json: string)
    requires b.Idle() && NoLineBreak(json) && |json| > 0 && json[0] == '{'
    ensures InterpretFrom(b, SseJsonFrame(json)) == (b, [])
  {
    OneLineFrame(json);
    var name := Split(json, ':')[0];
    assert |name| > 0 && name[0] == '{';
    SplitFirstIsPrefix(json, ':');
    assert FieldOf(json).0 == name;
    assert ProcessLine(b, json) == (b, []);
    OneLine(b, json);
    BlankLineWhenIdle(b);
    ProcessLinesAppend(b, [json], [""]);
    assert [json] + [""] == [json, ""];
  }

  /**
   * The first status frame of the analysis service, `{"status": "started the
   * flow"}`, is lost by a client as written, and delivered by the data frame.
   */
  lemma StartedFrameIsLost()
    ensures var json := "{\"status\": \"started the flow\"}";
            Interpret(SseJsonFrame(json)) == []
            && Interpret(SseDataFrame(json)) == [Event("message", json, "")]
  {
    var json := "{\"status\": \"started the flow\"}";
    JsonFrameDispatchesNothing(Fresh, json);
  }

  /** What the joke service puts on the wire: event frames and keep-alive comments. */
  datatype Chunk = Frame(event: string, data: string, eventId: Option<string>) | KeepAlive

  function Wire(c: Chunk): string {
    match c
    case Frame(event, data, eventId) => SseEvent(event, data, eventId)
    case KeepAlive => KeepAliveFrame
  }

  predicate WellFormed(c: Chunk) {
    c.Frame? ==> NoLineBreak(c.event) && NoLineBreak(c.data) && (c.eventId.Some? ==> NoLineBreak(c.eventId.value))
  }

  function Concat(cs: seq<Chunk>): string {
    if |cs| == 0 then "" else Wire(cs[0]) + Concat(cs[1..])
  }

  /** The events the chunks carry, in order, with the last event ID carried from frame to frame. */
  function Expected(lastEventId: string, cs: seq<Chunk>): seq<Event>
    decreases |cs|
  {
    if |cs| == 0 then []
    else match cs[0]
      case KeepAlive => Expected(lastEventId, cs[1..])
      case Frame(event, data, eventId) =>
        var id := NextEventId(lastEventId, eventId);
        [Event(EventType(event), data, id)] + Expected(id, cs[1..])
  }

  /** The last event ID once all chunks are read. */
  function FinalEventId(lastEventId: string, cs: seq<Chunk>): string
    decreases |cs|
  {
    if |cs| == 0 then lastEventId
    else match cs[0]
      case KeepAlive => FinalEventId(lastEventId, cs[1..])
      case Frame(_, _, eventId) => FinalEventId(NextEventId(lastEventId, eventId), cs[1..])
  }

  /**
   * A stream of well-formed frames and keep-alives is read as exactly the
   * frames' events, in the order they were written: none lost, none added,
   * keep-alives invisible.
   */
  lemma {:induction false} StreamRoundTrip(b: Buffers, cs: seq<Chunk>)
    requires b.Idle()
    requires forall i :: 0 <= i < |cs| ==> WellFormed(cs[i])
    ensures InterpretFrom(b, Concat(cs))
         == (Fresh.(lastEventId := FinalEventId(b.lastEventId, cs)), Expected(b.lastEventId, cs))
    decreases |cs|
  {
    if |cs| == 0 {
      assert Lines("") == [""];
    } else {
      var w := Wire(cs[0]);
      var b1 := InterpretFrom(b, w).0;
      var first := InterpretFrom(b, w);
      match cs[0] {
        case KeepAlive =>
          KeepAliveDispatchesNothing(b, KeepAliveFrame);
          assert first == (b, []);
        case Frame(event, data, eventId) =>
          FrameRoundTrip(b, event, data, eventId);
          var id := NextEventId(b.lastEventId, eventId);
          assert first == (Fresh.(lastEventId := id), [Event(EventType(event), data, id)]);
      }
      assert b1.Idle();
      assert FinalEventId(b.lastEventId, cs) == FinalEventId(b1.lastEventId, cs[1..]);
      assert Expected(b.lastEventId, cs) == first.1 + Expected(b1.lastEventId, cs[1..]);
      assert Concat(cs) == w + Concat(cs[1..]);
      assert forall i :: 0 <= i < |cs[1..]| ==> WellFormed(cs[1..][i]) by {
        forall i | 0 <= i < |cs[1..]| ensures WellFormed(cs[1..][i]) {
          assert cs[1..][i] == cs[i + 1];
        }
      }
      StreamRoundTrip(b1, cs[1..]);
      ConcatWithoutCR(cs[1..]);
      WireWithoutCR(cs[0]);
      WireStart(cs[0]);
      assert w[|w| - 1] == '\n';
      ReadAcrossChunks(b, w, Concat(cs[1..]));
    }
  }

  lemma WireWithoutCR(c: Chunk)
    requires WellFormed(c)
    ensures '\r' !in Wire(c)
  {
  }

  lemma {:induction false} ConcatWithoutCR(cs: seq<Chunk>)
    requires forall i :: 0 <= i < |cs| ==> WellFormed(cs[i])
    ensures '\r' !in Concat(cs)
  {
    if |cs| > 0 {
      assert forall i :: 0 <= i < |cs[1..]| ==> WellFormed(cs[1..][i]) by {
        forall i | 0 <= i < |cs[1..]| ensures WellFormed(cs[1..][i]) {
          assert cs[1..][i] == cs[i + 1];
        }
      }
      ConcatWithoutCR(cs[1..]);
      WireWithoutCR(cs[0]);
      assert Concat(cs) == Wire(cs[0]) + Concat(cs[1..]);
    }
  }

  /** Every chunk starts with `i`, `e`, `d` or `:`, never with a byte order mark. */
  lemma WireStart(c: Chunk)
    ensures |Wire(c)| > 0 && Wire(c)[0] != '\U{FEFF}'
  {
  }

  /** Read from the start of a connection, the joke service's stream yields the frames' events in order. */
  lemma JokeStreamEvents(cs: seq<Chunk>)
    requires forall i :: 0 <= i < |cs| ==> WellFormed(cs[i])
    ensures Interpret(Concat(cs)) == Expected("", cs)
  {
    StreamRoundTrip(Fresh, cs);
    if |cs| > 0 {
      WireStart(cs[0]);
      assert Concat(cs)[0] == Wire(cs[0])[0];
    }
  }
}
