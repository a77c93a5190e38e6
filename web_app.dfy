/**
 * The browser side of the streaming chat (web/App.tsx): splitting the
 * received text into server-sent-event frames, reading each frame's event
 * name and data, and the reply being streamed, with its de-duplicated
 * progress labels. `JSON.parse` is a parameter: a malformed payload is
 * `None`.
 */
module WebApp {
  import opened Wrappers
  import opened Strings
  import opened Json
  import WebChatApi

  // ---------------------------------------------------------------------
  // Frames
  // ---------------------------------------------------------------------

  /** A blank line (two newlines in a row) starts at `i`. */
  predicate BlankAt(s: string, i: int) {
    0 <= i < |s| - 1 && s[i] == '\n' && s[i + 1] == '\n'
  }

  predicate HasBlankLine(s: string) {
    exists i :: 0 <= i < |s| - 1 && BlankAt(s, i)
  }

  /** The first blank line at or after `i`, or -1. */
  function FindBlankLineFrom(s: string, i: nat): (r: int)
    requires forall j :: 0 <= j < i ==> !BlankAt(s, j)
    ensures -1 <= r < |s|
    ensures r == -1 ==> forall j :: !BlankAt(s, j)
    ensures r >= 0 ==> BlankAt(s, r) && forall j :: 0 <= j < r ==> !BlankAt(s, j)
    decreases |s| - i
  {
    if i + 1 >= |s| then -1
    else if BlankAt(s, i) then i
    else FindBlankLineFrom(s, i + 1)
  }

  /** The first blank line in `s`, or -1. */
  function FindBlankLine(s: string): (r: int)
    ensures -1 <= r < |s|
    ensures r == -1 <==> !HasBlankLine(s)
    ensures r >= 0 ==> BlankAt(s, r) && forall j :: 0 <= j < r ==> !BlankAt(s, j)
  {
    FindBlankLineFrom(s, 0)
  }

  /** The blank line at `k` is the first one. */
  lemma FindBlankLineAt(s: string, k: int)
    requires BlankAt(s, k) && forall j :: 0 <= j < k ==> !BlankAt(s, j)
    ensures FindBlankLine(s) == k
  {
  }

  /** A text without a blank line and not ending in a newline, followed by one blank line, splits into itself and "". */
  lemma SplitOneFrame(body: string)
    requires !HasBlankLine(body) && (body == [] || body[|body| - 1] != '\n')
    ensures SplitFrames(body + "\n\n") == [body, ""]
  {
    var s := body + "\n\n";
    FirstBlankAtEnd(body);
    FindBlankLineAt(s, |body|);
    assert s[|body| + 2..] == [];
    assert s[..|body|] == body;
    assert SplitFrames([]) == [[]];
  }

  /** Appending a blank line to such a text puts its first blank line at the end. */
  lemma FirstBlankAtEnd(body: string)
    requires !HasBlankLine(body) && (body == [] || body[|body| - 1] != '\n')
    ensures BlankAt(body + "\n\n", |body|)
    ensures forall j :: 0 <= j < |body| ==> !BlankAt(body + "\n\n", j)
  {
    var s := body + "\n\n";
    forall j | 0 <= j < |body| ensures !BlankAt(s, j) {
      if j < |body| - 1 {
        assert s[j] == body[j] && s[j + 1] == body[j + 1];
        assert !BlankAt(body, j);
      } else {
        assert s[j] == body[j];
      }
    }
  }

  /** Two lines without newlines, joined by one newline, hold no blank line. */
  lemma TwoLinesNoBlank(a: string, b: string)
    requires '\n' !in a && '\n' !in b && b != []
    ensures var s := a + "\n" + b; !HasBlankLine(s) && s[|s| - 1] != '\n'
  {
    var s := a + "\n" + b;
    forall j | 0 <= j < |s| - 1 ensures !BlankAt(s, j) {
      if j < |a| {
        assert s[j] == a[j];
      } else if j == |a| {
        assert s[j + 1] == b[0];
      } else {
        assert s[j] == b[j - |a| - 1];
      }
    }
    assert s[|s| - 1] == b[|b| - 1];
  }

  /** `s.split("\n\n")`: pieces at each blank line, leftmost first. */
  function SplitFrames(s: string): (r: seq<string>)
    ensures |r| >= 1
    ensures !HasBlankLine(r[|r| - 1])
    decreases |s|
  {
    var k := FindBlankLine(s);
    if k == -1 then [s] else [s[..k]] + SplitFrames(s[k + 2..])
  }

  /** The pieces put back together with blank lines are the text that was split. */
  lemma {:induction false} JoinSplitFrames(s: string)
    ensures Join(SplitFrames(s), "\n\n") == s
    decreases |s|
  {
    var k := FindBlankLine(s);
    if k != -1 {
      var rest := SplitFrames(s[k + 2..]);
      JoinSplitFrames(s[k + 2..]);
      assert s == s[..k] + "\n\n" + s[k + 2..];
    }
  }

  /** One line of a frame: an `event:` line sets the event name, a `data:` line adds its trimmed data. */
  function LineStep(prior: (string, seq<string>), line: string): (r: (string, seq<string>))
    ensures StartsWith(line, "event:") ==> r == (Trim(line[6..]), prior.1)
    ensures !StartsWith(line, "event:") && StartsWith(line, "data:") ==> r == (prior.0, prior.1 + [Trim(line[5..])])
    ensures !StartsWith(line, "event:") && !StartsWith(line, "data:") ==> r == prior
  {
    if StartsWith(line, "event:") then (Trim(line[6..]), prior.1)
    else if StartsWith(line, "data:") then (prior.0, prior.1 + [Trim(line[5..])])
    else prior
  }

  /** The event name and the trimmed data lines of a frame's lines; the event defaults to "message". */
  function FrameFields(lines: seq<string>): (string, seq<string>) {
    if lines == [] then ("message", [])
    else LineStep(FrameFields(lines[..|lines| - 1]), lines[|lines| - 1])
  }

  lemma FrameFieldsSnoc(lines: seq<string>, j: nat)
    requires j < |lines|
    ensures FrameFields(lines[..j + 1]) == LineStep(FrameFields(lines[..j]), lines[j])
  {
    assert lines[..j + 1][..j] == lines[..j];
  }

  /** A line whose first character differs from the prefix's does not start with it. */
  lemma NotPrefix(line: string, prefix: string)
    requires line != [] && prefix != [] && line[0] != prefix[0]
    ensures !StartsWith(line, prefix)
  {
    if |prefix| <= |line| {
      assert line[..|prefix|][0] != prefix[0];
    }
  }

  /** The frame's event name is that of its last `event:` line. */
  lemma {:induction false} LastEventLineWins(lines: seq<string>, i: nat)
    requires i < |lines| && StartsWith(lines[i], "event:")
    requires forall j :: i < j < |lines| ==> !StartsWith(lines[j], "event:")
    ensures FrameFields(lines).0 == Trim(lines[i][6..])
  {
    if i < |lines| - 1 {
      var init := lines[..|lines| - 1];
      assert init[i] == lines[i];
      forall j | i < j < |init| ensures !StartsWith(init[j], "event:") {
        assert init[j] == lines[j];
      }
      LastEventLineWins(init, i);
    }
  }

  /** Without any `event:` line the frame's event is "message". */
  lemma {:induction false} DefaultEventName(lines: seq<string>)
    requires forall j :: 0 <= j < |lines| ==> !StartsWith(lines[j], "event:")
    ensures FrameFields(lines).0 == "message"
  {
    if lines != [] {
      var init := lines[..|lines| - 1];
      forall j | 0 <= j < |init| ensures !StartsWith(init[j], "event:") {
        assert init[j] == lines[j];
      }
      DefaultEventName(init);
    }
  }

  /** What one complete frame hands to the callback, if anything. */
  function FrameEvent(chunk: string, parse: string -> Option<Json>): Option<(string, Json)> {
    var fields := FrameFields(Split(chunk, '\n'));
    if fields.1 == [] then None
    else
      var parsed := parse(Join(fields.1, "\n"));
      if parsed.Some? then Some((fields.0, parsed.value)) else None
  }

  function FrameEvents(chunks: seq<string>, parse: string -> Option<Json>): seq<(string, Json)> {
    if chunks == [] then []
    else
      var e := FrameEvent(chunks[|chunks| - 1], parse);
      FrameEvents(chunks[..|chunks| - 1], parse) + (if e.Some? then [e.value] else [])
  }

  /** The line loop of `parseSseChunk` for one frame. */
  method ReadFrame(chunk: string) returns (event: string, dataLines: seq<string>)
    ensures (event, dataLines) == FrameFields(Split(chunk, '\n'))
  {
    var lines := Split(chunk, '\n');
    event := "message";
    dataLines := [];
    for j := 0 to |lines|
      invariant (event, dataLines) == FrameFields(lines[..j])
    {
      FrameFieldsSnoc(lines, j);
      var line := lines[j];
      if StartsWith(line, "event:") {
        event := Trim(line[6..]);
      } else if StartsWith(line, "data:") {
        dataLines := dataLines + [Trim(line[5..])];
      }
    }
    assert lines[..|lines|] == lines;
  }

  /**
   * `parseSseChunk(buffer, onEvent)`: the callbacks, in order, for the
   * complete frames (the pieces before the last blank line), and the
   * incomplete rest, which holds no blank line.
   */
  method ParseSseChunk(buffer: string, parse: string -> Option<Json>)
    returns (events: seq<(string, Json)>, remaining: string)
    ensures var chunks := SplitFrames(buffer);
      remaining == chunks[|chunks| - 1] && events == FrameEvents(chunks[..|chunks| - 1], parse)
    ensures !HasBlankLine(remaining)
  {
    var chunks := SplitFrames(buffer);
    remaining := chunks[|chunks| - 1];
    chunks := chunks[..|chunks| - 1];
    events := [];
    for i := 0 to |chunks|
      invariant events == FrameEvents(chunks[..i], parse)
    {
      assert chunks[..i + 1][..i] == chunks[..i];
      var event, dataLines := ReadFrame(chunks[i]);
      if dataLines != [] {
        var parsed := parse(Join(dataLines, "\n"));
        if parsed.Some? {
          events := events + [(event, parsed.value)];
        }
      }
    }
    assert chunks[..|chunks|] == chunks;
  }

  /** The callbacks and the rest `ParseSseChunk` produces. */
  function ParseResult(buffer: string, parse: string -> Option<Json>): (seq<(string, Json)>, string) {
    var chunks := SplitFrames(buffer);
    (FrameEvents(chunks[..|chunks| - 1], parse), chunks[|chunks| - 1])
  }

  /** The keep-alive comment the server sends is a complete frame without data: no callback. */
  lemma KeepAliveSilent(parse: string -> Option<Json>)
    ensures ParseResult(": keep-alive\n\n", parse) == ([], "")
  {
    var body := ": keep-alive";
    assert ": keep-alive\n\n" == body + "\n\n";
    assert '\n' !in body;
    assert body[|body| - 1] != '\n';
    SplitWithout(body, '\n');
    NoFieldLine(body);
    ParseOneFrame(body, parse);
  }

  /** One complete frame and nothing after it: at most its own callback, and no rest. */
  lemma ParseOneFrame(body: string, parse: string -> Option<Json>)
    requires !HasBlankLine(body) && (body == [] || body[|body| - 1] != '\n')
    ensures var e := FrameEvent(body, parse);
      ParseResult(body + "\n\n", parse) == (if e.Some? then [e.value] else [], "")
  {
    SplitOneFrame(body);
    var chunks: seq<string> := [body, ""];
    var none: seq<string> := [];
    assert chunks[..1] == [body];
    assert chunks[..1][..0] == none;
    var e := FrameEvent(body, parse);
    var emitted := if e.Some? then [e.value] else [];
    assert FrameEvents(chunks[..1], parse) == FrameEvents(none, parse) + emitted;
    assert FrameEvents(none, parse) + emitted == emitted;
    assert ParseResult(body + "\n\n", parse) == (FrameEvents(chunks[..1], parse), "");
  }

  /** A line that is neither an `event:` nor a `data:` line gives a frame with no data. */
  lemma NoFieldLine(line: string)
    requires line != [] && line[0] != 'e' && line[0] != 'd'
    ensures FrameFields([line]) == ("message", [])
  {
    var one: seq<string> := [line];
    var none: seq<string> := [];
    assert one[..0] == none;
    NotPrefix(line, "event:");
    NotPrefix(line, "data:");
  }

  /** A space before a text with no whitespace at either end trims away. */
  lemma TrimSpacePrefix(s: string)
    requires s == [] || (!IsWhitespace(s[0]) && !IsWhitespace(s[|s| - 1]))
    ensures Trim([' '] + s) == s
  {
    assert ([' '] + s)[1..] == s;
    assert TrimStart([' '] + s) == TrimStart(s);
    TrimOfTrimmed(s);
  }

  /** The two lines of an event frame. */
  lemma FrameLines(event: string, json: string)
    requires '\n' !in event && '\n' !in json
    ensures Split("event: " + event + "\ndata: " + json, '\n') == ["event: " + event, "data: " + json]
  {
    var first := "event: " + event;
    var second := "data: " + json;
    assert '\n' !in first && '\n' !in second;
    Strings.SplitJoin([first, second], '\n');
    assert Join([first, second], "\n") == "event: " + event + "\ndata: " + json;
  }

  /** An `event: ` line names the trimmed event. */
  lemma EventLine(event: string)
    requires event == [] || (!IsWhitespace(event[0]) && !IsWhitespace(event[|event| - 1]))
    ensures var line := "event: " + event; StartsWith(line, "event:") && Trim(line[6..]) == event
  {
    var line := "event: " + event;
    assert line[..6] == "event:";
    assert line[6..] == [' '] + event;
    TrimSpacePrefix(event);
  }

  /** A `data: ` line carries the trimmed data. */
  lemma DataLine(json: string)
    requires json != [] && !IsWhitespace(json[0]) && !IsWhitespace(json[|json| - 1])
    ensures var line := "data: " + json;
      !StartsWith(line, "event:") && StartsWith(line, "data:") && Trim(line[5..]) == json
  {
    var line := "data: " + json;
    NotPrefix(line, "event:");
    assert line[..5] == "data:";
    assert line[5..] == [' '] + json;
    TrimSpacePrefix(json);
  }

  /** The fields of the two-line frame. */
  lemma FrameFieldsOfEvent(event: string, json: string)
    requires event == [] || (!IsWhitespace(event[0]) && !IsWhitespace(event[|event| - 1]))
    requires json != [] && !IsWhitespace(json[0]) && !IsWhitespace(json[|json| - 1])
    ensures FrameFields(["event: " + event, "data: " + json]) == (event, [json])
  {
    var first := "event: " + event;
    var second := "data: " + json;
    var lines: seq<string> := [first, second];
    var none: seq<string> := [];
    assert lines[..1] == [first];
    assert lines[..1][..0] == none;
    EventLine(event);
    DataLine(json);
    assert FrameFields(lines[..1]) == (event, []);
    var prior: (string, seq<string>) := (event, none);
    assert FrameFields(lines) == LineStep(prior, second);
    assert LineStep(prior, second) == (event, none + [json]);
    assert none + [json] == [json];
  }

  /**
   * Round trip with the server's `sseFrame`: parsing one frame gives
   * exactly one callback with the event name and the data, and nothing is
   * left over, for an event name without newlines or surrounding
   * whitespace and a `JSON.parse` that reads back `JSON.stringify`.
   */
  lemma SseFrameRoundTrip(event: string, data: Json, parse: string -> Option<Json>)
    requires '\n' !in event
    requires event == [] || (!IsWhitespace(event[0]) && !IsWhitespace(event[|event| - 1]))
    requires parse(WebChatApi.Stringify(data)) == Some(data)
    ensures ParseResult(WebChatApi.SseFrame(event, data), parse) == ([(event, data)], "")
  {
    var json := WebChatApi.Stringify(data);
    StringifyTrimmed(data);
    var head := "event: " + event + "\ndata: " + json;
    HeadEvent(event, json, data, parse);
    FrameHead(event, json);
    ParseOneFrame(head, parse);
    SseFrameText(event, data);
  }

  lemma SseFrameText(event: string, data: Json)
    ensures WebChatApi.SseFrame(event, data)
      == "event: " + event + "\ndata: " + WebChatApi.Stringify(data) + "\n\n"
  {
  }

  /** The two lines of a frame hold no blank line and do not end in a newline. */
  lemma FrameHead(event: string, json: string)
    requires '\n' !in event && '\n' !in json && json != []
    ensures var head := "event: " + event + "\ndata: " + json;
      !HasBlankLine(head) && head[|head| - 1] != '\n'
  {
    var first := "event: " + event;
    var second := "data: " + json;
    assert '\n' !in first && '\n' !in second;
    TwoLinesNoBlank(first, second);
    assert first + "\n" + second == "event: " + event + "\ndata: " + json;
  }

  lemma StringifyTrimmed(data: Json)
    ensures var json := WebChatApi.Stringify(data);
      json != [] && '\n' !in json && !IsWhitespace(json[0]) && !IsWhitespace(json[|json| - 1])
  {
    var json := WebChatApi.Stringify(data);
    WebChatApi.JsonEdgeNotWhitespace(json[0]);
    WebChatApi.JsonEdgeNotWhitespace(json[|json| - 1]);
  }

  /** The frame's two lines hand the event name and the parsed data to the callback. */
  lemma HeadEvent(event: string, json: string, data: Json, parse: string -> Option<Json>)
    requires '\n' !in event && '\n' !in json
    requires event == [] || (!IsWhitespace(event[0]) && !IsWhitespace(event[|event| - 1]))
    requires json != [] && !IsWhitespace(json[0]) && !IsWhitespace(json[|json| - 1])
    requires parse(json) == Some(data)
    ensures FrameEvent("event: " + event + "\ndata: " + json, parse) == Some((event, data))
  {
    FrameLines(event, json);
    FrameFieldsOfEvent(event, json);
    assert Join([json], "\n") == json;
  }

  // ---------------------------------------------------------------------
  // The reply being streamed
  // ---------------------------------------------------------------------

  predicate NoAdjacentRepeats(labels: seq<string>) {
    forall i :: 0 <= i < |labels| - 1 ==> labels[i] != labels[i + 1]
  }

  /** A new progress label is added unless it repeats the previous one. */
  function RecordProgress(labels: seq<string>, next: string): (r: seq<string>)
    ensures r != [] && r[|r| - 1] == next
    ensures r == labels || r == labels + [next]
    ensures r == labels <==> labels != [] && labels[|labels| - 1] == next
  {
    if labels != [] && labels[|labels| - 1] == next then labels else labels + [next]
  }

  /** Recording keeps the labels free of adjacent repeats. */
  lemma RecordProgressNoRepeats(labels: seq<string>, next: string)
    requires NoAdjacentRepeats(labels)
    ensures NoAdjacentRepeats(RecordProgress(labels, next))
  {
    var r := RecordProgress(labels, next);
    forall i | 0 <= i < |r| - 1 ensures r[i] != r[i + 1] {
      if r != labels && i < |labels| - 1 {
        assert r[i] == labels[i] && r[i + 1] == labels[i + 1];
      }
    }
  }

  /** The same label arriving twice in a row is recorded once. */
  lemma RecordProgressIdempotent(labels: seq<string>, next: string)
    ensures RecordProgress(RecordProgress(labels, next), next) == RecordProgress(labels, next)
  {
  }

  /** `pendingProgress.slice(-3)` */
  function Visible(labels: seq<string>): (r: seq<string>)
    ensures |r| == if |labels| < 3 then |labels| else 3
    ensures r == labels[|labels| - |r|..]
  {
    if |labels| <= 3 then labels else labels[|labels| - 3..]
  }

  function Bullets(labels: seq<string>): (r: seq<string>)
    ensures |r| == |labels|
    ensures forall i :: 0 <= i < |labels| ==> r[i] == "- " + labels[i]
  {
    if labels == [] then [] else ["- " + labels[0]] + Bullets(labels[1..])
  }

  const ThinkingHeader: string := "Thinking..."

  function ThinkingText(labels: seq<string>): string {
    Join([ThinkingHeader] + Bullets(Visible(labels)), "\n")
  }

  /** The thinking text shows the header and then, one per line, the last three labels at most. */
  lemma ThinkingTextLines(labels: seq<string>)
    requires forall i :: 0 <= i < |labels| ==> '\n' !in labels[i]
    ensures var lines := Split(ThinkingText(labels), '\n');
      && 1 <= |lines| <= 4
      && lines[0] == ThinkingHeader
      && lines[1..] == Bullets(Visible(labels))
  {
    var ls := [ThinkingHeader] + Bullets(Visible(labels));
    var v := Visible(labels);
    forall i | 0 <= i < |ls| ensures '\n' !in ls[i] {
      if i > 0 {
        assert ls[i] == "- " + v[i - 1];
        assert v[i - 1] == labels[|labels| - |v| + i - 1];
      }
    }
    Strings.SplitJoin(ls, '\n');
  }

  /**
   * The assistant message of the reply being streamed (`pendingAssistantId`,
   * `pendingAssistantText`, `pendingProgress`, the message's content and
   * thinking flag, and the error line).
   */
  class PendingReply {
    var assistantId: string
    var text: string
    var progress: seq<string>
    var shown: Option<(string, bool)>
    var errorLine: Option<string>

    constructor ()
      ensures assistantId == "" && text == "" && progress == [] && shown.None? && errorLine.None?
    {
      assistantId := "";
      text := "";
      progress := [];
      shown := None;
      errorLine := None;
    }

    /** The recorded labels are shown ones, without adjacent repeats. */
    predicate Valid()
      reads this
    {
      NoAdjacentRepeats(progress) && forall i :: 0 <= i < |progress| ==> progress[i] != []
    }

    /**
     * The callback `parseSseChunk` receives for one event. A `null` payload
     * makes the callback's first property access throw, and the parser's
     * catch swallows that, so such an event changes nothing.
     */
    method OnEvent(eventName: string, data: Json)
      requires Valid()
      modifies this
      ensures Valid()
      ensures data.JNull? ==>
        assistantId == old(assistantId) && text == old(text) && progress == old(progress)
        && shown == old(shown) && errorLine == old(errorLine)
      ensures !data.JNull? && KindOf(eventName) == MessageStart ==>
        assistantId == GetString(data, "assistantMessageId").GetOr("") && shown == Some((ThinkingHeader, true))
        && text == old(text) && progress == old(progress) && errorLine == old(errorLine)
      ensures !data.JNull? && KindOf(eventName) == Token ==>
        text == old(text) + DeltaText(data)
        && shown == (if old(shown).Some? then Some((text, false)) else None)
        && assistantId == old(assistantId) && progress == old(progress) && errorLine == old(errorLine)
      ensures !data.JNull? && KindOf(eventName) == Progress ==>
        var next := ProgressLabelOf(data);
        var accepted := next != "" && old(assistantId) != "" && Trim(old(text)) == [];
        && progress == (if accepted then RecordProgress(old(progress), next) else old(progress))
        && shown == (if accepted && old(shown).Some? then Some((ThinkingText(progress), true)) else old(shown))
        && assistantId == old(assistantId) && text == old(text) && errorLine == old(errorLine)
      ensures !data.JNull? && KindOf(eventName) == Failure ==>
        errorLine == Some(ErrorText(data))
        && assistantId == old(assistantId) && text == old(text) && progress == old(progress) && shown == old(shown)
      ensures KindOf(eventName) == Ignored ==>
        assistantId == old(assistantId) && text == old(text) && progress == old(progress)
        && shown == old(shown) && errorLine == old(errorLine)
    {
      if data.JNull? {
        return;
      }
      match KindOf(eventName)
      case MessageStart =>
        assistantId := GetString(data, "assistantMessageId").GetOr("");
        shown := Some((ThinkingHeader, true));
      case Token =>
        text := text + DeltaText(data);
        if shown.Some? {
          shown := Some((text, false));
        }
      case Progress =>
        OnProgress(ProgressLabelOf(data));
      case Failure =>
        errorLine := Some(ErrorText(data));
      case Ignored =>
    }

    /** A progress label: recorded, and the thinking text redrawn, only before any reply text. */
    method OnProgress(next: string)
      requires Valid()
      modifies this
      ensures Valid()
      ensures var accepted := next != "" && old(assistantId) != "" && Trim(old(text)) == [];
        && progress == (if accepted then RecordProgress(old(progress), next) else old(progress))
        && shown == (if accepted && old(shown).Some? then Some((ThinkingText(progress), true)) else old(shown))
        && assistantId == old(assistantId) && text == old(text) && errorLine == old(errorLine)
    {
      if next == "" || assistantId == "" || Trim(text) != [] {
        return;
      }
      RecordProgressNoRepeats(progress, next);
      progress := RecordProgress(progress, next);
      if shown.Some? {
        shown := Some((ThinkingText(progress), true));
      }
    }
  }

  /** The events the client reacts to. */
  datatype EventKind = MessageStart | Token | Progress | Failure | Ignored

  function KindOf(eventName: string): EventKind {
    if eventName == "message_start" then MessageStart
    else if eventName == "token" then Token
    else if eventName == "progress" then Progress
    else if eventName == "error" then Failure
    else Ignored
  }

  /** `data.delta ?? ""`, appended as text. */
  function DeltaText(data: Json): (r: string)
    ensures GetString(data, "delta").Some? ==> r == GetString(data, "delta").value
    ensures Get(data, "delta").None? ==> r == ""
  {
    match Get(data, "delta")
    case None => ""
    case Some(JNull) => ""
    case Some(v) => JsString(v)
  }

  /** The trimmed string label, or "" when there is none. */
  function ProgressLabelOf(data: Json): (r: string)
    ensures r == [] || (!IsWhitespace(r[0]) && !IsWhitespace(r[|r| - 1]))
  {
    var next := GetString(data, "label");
    if next.Some? then Trim(next.value) else ""
  }

  /** `data.message ?? "Streaming failed."` */
  function ErrorText(data: Json): (r: string)
    ensures Get(data, "message").None? ==> r == "Streaming failed."
    ensures GetString(data, "message").Some? ==> r == GetString(data, "message").value
  {
    match Get(data, "message")
    case None => "Streaming failed."
    case Some(JNull) => "Streaming failed."
    case Some(v) => JsString(v)
  }
}
