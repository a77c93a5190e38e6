/**
 * The web chat API's own logic (lib/web-chat-api.ts): cookie-header
 * parsing, the in-memory fallback session, server-sent-event frames with
 * their JSON payloads, thread titles from a first message, progress labels,
 * and the frame sequence the streaming endpoint emits for one agent run.
 * The agent run, the data store and the stream controller are parameters.
 */
module WebChatApi {
  import opened Wrappers
  import opened Strings
  import opened Json
  import RunStreamUtils

  // ---------------------------------------------------------------------
  // Cookies
  // ---------------------------------------------------------------------

  /** One `name=value` part, trimmed; no entry without a name or without "=". */
  function CookieEntry(part: string): Option<(string, string)> {
    TrimmedEntry(Trim(part))
  }

  /** The entry of a part once trimmed: the name before the first "=", the value after it. */
  function TrimmedEntry(t: string): Option<(string, string)> {
    var pieces := Split(t, '=');
    if pieces[0] == [] || |pieces| == 1 then None
    else Some((pieces[0], Join(pieces[1..], "=")))
  }

  lemma TrimmedEntrySplitsAtFirstEquals(t: string)
    ensures var k := IndexOf(t, '=');
      && (TrimmedEntry(t).Some? <==> k > 0)
      && (k > 0 ==> TrimmedEntry(t).value == (t[..k], t[k + 1..]))
  {
    var k := IndexOf(t, '=');
    if k <= 0 {
      return;
    }
    var pieces := Split(t, '=');
    assert pieces == [t[..k]] + Split(t[k + 1..], '=');
    assert pieces[1..] == Split(t[k + 1..], '=');
    JoinSplit(t[k + 1..], '=');
  }

  /** The name is what precedes the first "=", and the value is everything after it. */
  lemma CookieEntrySplitsAtFirstEquals(part: string)
    ensures var t := Trim(part); var k := IndexOf(t, '=');
      && (CookieEntry(part).Some? <==> k > 0)
      && (k > 0 ==> CookieEntry(part).value == (t[..k], t[k + 1..]))
  {
    TrimmedEntrySplitsAtFirstEquals(Trim(part));
  }

  /** The map the parts fill, in order: a later part overwrites an earlier one with the same name. */
  function CookieMap(parts: seq<string>): map<string, string> {
    if parts == [] then map[] else AddCookie(CookieMap(parts[..|parts| - 1]), parts[|parts| - 1])
  }

  /** One step of the loop: a part with an entry sets its name. */
  function AddCookie(m: map<string, string>, part: string): map<string, string> {
    var e := CookieEntry(part);
    if e.Some? then m[e.value.0 := e.value.1] else m
  }

  lemma CookieMapSnoc(parts: seq<string>, part: string)
    ensures CookieMap(parts + [part]) == AddCookie(CookieMap(parts), part)
  {
    assert (parts + [part])[..|parts|] == parts;
  }

  /** `parseCookieHeader(value)` */
  method ParseCookieHeader(value: Option<string>) returns (output: map<string, string>)
    ensures value.None? || value.value == "" ==> output == map[]
    ensures value.Some? && value.value != "" ==> output == CookieMap(Split(value.value, ';'))
  {
    output := map[];
    if value.None? || value.value == "" {
      return;
    }
    var parts := Split(value.value, ';');
    var i := 0;
    while i < |parts|
      invariant 0 <= i <= |parts|
      invariant output == CookieMap(parts[..i])
    {
      assert parts[..i + 1] == parts[..i] + [parts[i]];
      CookieMapSnoc(parts[..i], parts[i]);
      ghost var before := output;
      var entry := CookieEntry(parts[i]);
      if entry.Some? {
        output := output[entry.value.0 := entry.value.1];
      }
      assert output == AddCookie(before, parts[i]);
      i := i + 1;
    }
    CookieMapWhole(parts);
  }

  lemma CookieMapWhole(parts: seq<string>)
    ensures CookieMap(parts[..|parts|]) == CookieMap(parts)
  {
    assert parts[..|parts|] == parts;
  }

  /** A name maps to the value of the last part that names it. */
  lemma {:induction false} CookieLastWins(parts: seq<string>, i: nat, name: string, v: string)
    requires i < |parts| && CookieEntry(parts[i]) == Some((name, v))
    requires forall j :: i < j < |parts| ==> CookieEntry(parts[j]).None? || CookieEntry(parts[j]).value.0 != name
    ensures name in CookieMap(parts) && CookieMap(parts)[name] == v
  {
    if i < |parts| - 1 {
      var init := parts[..|parts| - 1];
      assert init[i] == parts[i];
      forall j | i < j < |init| ensures CookieEntry(init[j]).None? || CookieEntry(init[j]).value.0 != name {
        assert init[j] == parts[j];
      }
      CookieLastWins(init, i, name, v);
    }
  }

  /** Every name in the map comes from some part. */
  lemma {:induction false} CookieNamesFromParts(parts: seq<string>, name: string)
    requires name in CookieMap(parts)
    ensures exists i :: 0 <= i < |parts| && CookieEntry(parts[i]).Some? && CookieEntry(parts[i]).value == (name, CookieMap(parts)[name])
  {
    var init := parts[..|parts| - 1];
    var e := CookieEntry(parts[|parts| - 1]);
    if e.Some? && e.value.0 == name {
    } else {
      CookieNamesFromParts(init, name);
      var i :| 0 <= i < |init| && CookieEntry(init[i]).Some? && CookieEntry(init[i]).value == (name, CookieMap(init)[name]);
      assert parts[i] == init[i];
    }
  }

  // ---------------------------------------------------------------------
  // In-memory session
  // ---------------------------------------------------------------------

  /** `LocalSession`: the fallback session that keeps its items in memory. */
  class LocalSession {
    const sessionId: string
    var items: seq<Json>

    constructor (id: string)
      ensures sessionId == id && items == []
    {
      sessionId := id;
      items := [];
    }

    method GetSessionId() returns (id: string)
      ensures id == sessionId
    {
      id := sessionId;
    }

    /** `getItems(limit)`: all items, or the last `limit` of them; none for a limit of 0 or less. */
    method GetItems(limit: Option<int>) returns (r: seq<Json>)
      ensures limit.None? ==> r == items
      ensures limit.Some? && limit.value <= 0 ==> r == []
      ensures limit.Some? && limit.value > 0 ==>
        |r| == (if limit.value < |items| then limit.value else |items|) && r == items[|items| - |r|..]
    {
      if limit.None? {
        return items;
      }
      var start := if |items| - limit.value > 0 then |items| - limit.value else 0;
      r := if start <= |items| then items[start..] else [];
    }

    method AddItems(newItems: seq<Json>)
      modifies this
      ensures items == old(items) + newItems
    {
      items := items + newItems;
    }

    /** `popItem`: the last item, removed; nothing on an empty list. */
    method PopItem() returns (r: Option<Json>)
      modifies this
      ensures old(items) == [] ==> r.None? && items == []
      ensures old(items) != [] ==> r == Some(old(items)[|old(items)| - 1]) && items + [r.value] == old(items)
    {
      if items == [] {
        return None;
      }
      r := Some(items[|items| - 1]);
      items := items[..|items| - 1];
    }

    method ClearSession()
      modifies this
      ensures items == []
    {
      items := [];
    }
  }

  // ---------------------------------------------------------------------
  // JSON text and event frames
  // ---------------------------------------------------------------------

  function HexLower(n: nat): char
    requires n < 16
  {
    if n < 10 then ('0' as int + n) as char else ('a' as int + n - 10) as char
  }

  /** How `JSON.stringify` writes one character of a string. */
  function EscapeChar(c: char): (r: string)
    ensures r != [] && '\n' !in r
    ensures c != '"' && c != '\\' && c >= ' ' ==> r == [c]
  {
    if c == '"' then "\\\""
    else if c == '\\' then "\\\\"
    else if c == '\U{0008}' then "\\b"
    else if c == '\U{000C}' then "\\f"
    else if c == '\n' then "\\n"
    else if c == '\r' then "\\r"
    else if c == '\t' then "\\t"
    else if c < ' ' then "\\u00" + [HexLower(c as int / 16), HexLower(c as int % 16)]
    else [c]
  }

  function EscapeString(s: string): (r: string)
    ensures '\n' !in r
  {
    if s == [] then [] else EscapeChar(s[0]) + EscapeString(s[1..])
  }

  function Quote(s: string): (r: string)
    ensures |r| >= 2 && r[0] == '"' && r[|r| - 1] == '"' && '\n' !in r
  {
    "\"" + EscapeString(s) + "\""
  }

  /** Characters a JSON text can start or end with. */
  predicate JsonEdge(c: char) {
    c == 'n' || c == 'l' || c == 't' || c == 'e' || c == 'f' || c == '"' || c == '[' || c == ']'
      || c == '{' || c == '}' || c == '-' || ('0' <= c <= '9')
  }

  /**
   * `JSON.stringify(v)` without indentation: the text has no raw newline
   * and starts and ends with a structural character, never whitespace.
   */
  function Stringify(v: Json): (r: string)
    ensures r != [] && '\n' !in r && JsonEdge(r[0]) && JsonEdge(r[|r| - 1])
    decreases v, 1
  {
    match v
    case JNull => "null"
    case JBool(b) => if b then "true" else "false"
    case JNum(n) => IntToString(n)
    case JStr(s) => Quote(s)
    case JArr(es) => "[" + StringifyElements(es) + "]"
    case JObj(fs) => "{" + StringifyFields(fs) + "}"
  }

  function StringifyElements(es: seq<Json>): (r: string)
    ensures '\n' !in r
    decreases es, 0
  {
    if es == [] then ""
    else if |es| == 1 then Stringify(es[0])
    else Stringify(es[0]) + "," + StringifyElements(es[1..])
  }

  function StringifyFields(fs: seq<(string, Json)>): (r: string)
    ensures '\n' !in r
    decreases fs, 0
  {
    if fs == [] then ""
    else
      var f := fs[0];
      assert f in fs && f.1 < f;
      var member := Quote(f.0) + ":" + Stringify(f.1);
      if |fs| == 1 then member else member + "," + StringifyFields(fs[1..])
  }

  lemma JsonEdgeNotWhitespace(c: char)
    requires JsonEdge(c)
    ensures !IsWhitespace(c)
  {
  }

  /** `sseFrame(event, data)` */
  function SseFrame(event: string, data: Json): (r: string)
    ensures |r| > 2 && r[|r| - 2..] == "\n\n"
    ensures '\n' !in event ==> forall i :: 0 <= i < |r| - 3 ==> !(r[i] == '\n' && r[i + 1] == '\n')
  {
    "event: " + event + "\ndata: " + Stringify(data) + "\n\n"
  }

  // ---------------------------------------------------------------------
  // Titles
  // ---------------------------------------------------------------------

  /**
   * The characters the title keeps: letters and numbers (`\p{L}`, `\p{N}`,
   * decided by `isLetterOrNumber`), whitespace, apostrophes, hyphens and colons.
   */
  predicate TitleChar(c: char, isLetterOrNumber: char -> bool) {
    isLetterOrNumber(c) || IsWhitespace(c) || c == '\'' || c == '\U{2019}' || c == '-' || c == ':'
  }

  function KeepTitleChars(s: string, isLetterOrNumber: char -> bool): (r: string)
    ensures |r| <= |s|
    ensures forall i :: 0 <= i < |r| ==> TitleChar(r[i], isLetterOrNumber)
  {
    if s == [] then []
    else (if TitleChar(s[0], isLetterOrNumber) then [s[0]] else []) + KeepTitleChars(s[1..], isLetterOrNumber)
  }

  /** `split(" ").filter(Boolean)` */
  function NonEmpty(ws: seq<string>): (r: seq<string>)
    ensures |r| <= |ws|
    ensures forall i :: 0 <= i < |r| ==> r[i] != []
    ensures forall i :: 0 <= i < |r| ==> r[i] in ws
  {
    if ws == [] then []
    else (if ws[0] != [] then [ws[0]] else []) + NonEmpty(ws[1..])
  }

  /** The first (at most) eight words of the cleaned text, joined by single spaces. */
  function ShortTitle(cleaned: string): (r: seq<string>)
    ensures |r| <= 8
    ensures forall i :: 0 <= i < |r| ==> r[i] != [] && ' ' !in r[i]
  {
    var words := NonEmpty(Split(cleaned, ' '));
    assert forall i :: 0 <= i < |words| ==> ' ' !in words[i];
    if |words| > 8 then words[..8] else words
  }

  function Capitalize(s: string): (r: string)
    ensures |r| == |s|
  {
    if s == [] then s else [UpperChar(s[0])] + s[1..]
  }

  const NewThreadTitle: string := "New thread"

  /** `generateTitleFromFirstMessage(text)` */
  function GenerateTitleFromFirstMessage(text: string, isLetterOrNumber: char -> bool): (r: string)
    ensures r != []
    ensures |r| <= 52
    ensures AllWhitespace(KeepTitleChars(CollapseWhitespace(text), isLetterOrNumber)) ==> r == NewThreadTitle
  {
    var cleaned := Trim(KeepTitleChars(CollapseWhitespace(text), isLetterOrNumber));
    if cleaned == [] then NewThreadTitle
    else
      var words := ShortTitle(cleaned);
      var titled := Capitalize(Join(words, " "));
      TitleNotEmpty(cleaned);
      if |titled| > 52 then Trim(titled[..49]) + "..." else titled
  }

  /** A non-blank cleaned text has a first word, so the joined title is not empty. */
  lemma TitleNotEmpty(cleaned: string)
    requires cleaned != [] && !IsWhitespace(cleaned[0])
    ensures Join(ShortTitle(cleaned), " ") != []
  {
    var pieces := Split(cleaned, ' ');
    var words := NonEmpty(pieces);
    assert words != [] && words[0] == pieces[0];
  }

  /**
   * An untruncated title is the capitalised first words of the cleaned
   * text: splitting it at spaces gives at most eight words.
   */
  lemma TitleWords(text: string, isLetterOrNumber: char -> bool)
    requires var cleaned := Trim(KeepTitleChars(CollapseWhitespace(text), isLetterOrNumber));
      cleaned != [] && |Join(ShortTitle(cleaned), " ")| <= 52
    ensures var cleaned := Trim(KeepTitleChars(CollapseWhitespace(text), isLetterOrNumber));
      var words := ShortTitle(cleaned);
      && GenerateTitleFromFirstMessage(text, isLetterOrNumber) == Capitalize(Join(words, " "))
      && Split(Join(words, " "), ' ') == words
      && |words| <= 8
  {
    var cleaned := Trim(KeepTitleChars(CollapseWhitespace(text), isLetterOrNumber));
    var words := ShortTitle(cleaned);
    TitleNotEmpty(cleaned);
    SplitJoin(words, ' ');
  }

  /**
   * A long title is cut: the capitalised words are cut after 49 characters,
   * the whitespace at the cut is dropped, and "..." is appended.
   */
  lemma TitleTruncated(text: string, isLetterOrNumber: char -> bool)
    requires var cleaned := Trim(KeepTitleChars(CollapseWhitespace(text), isLetterOrNumber));
      cleaned != [] && |Join(ShortTitle(cleaned), " ")| > 52
    ensures var cleaned := Trim(KeepTitleChars(CollapseWhitespace(text), isLetterOrNumber));
      var titled := Capitalize(Join(ShortTitle(cleaned), " "));
      var r := GenerateTitleFromFirstMessage(text, isLetterOrNumber);
      && 3 < |r| <= 52 && r[|r| - 3..] == "..."
      && var head := r[..|r| - 3];
      && head != [] && head == titled[..|head|]
      && !IsWhitespace(head[|head| - 1]) && AllWhitespace(titled[|head|..49])
  {
    var cleaned := Trim(KeepTitleChars(CollapseWhitespace(text), isLetterOrNumber));
    var titled := Capitalize(Join(ShortTitle(cleaned), " "));
    TitleStartsSolid(cleaned);
    var cut := titled[..49];
    assert !IsWhitespace(cut[0]);
    assert TrimStart(cut) == cut;
    TrimEndPrefix(cut);
    TrimEndSkipsWhitespace(cut);
    var head := TrimEnd(cut);
    assert Trim(cut) == head;
    var r := GenerateTitleFromFirstMessage(text, isLetterOrNumber);
    assert r == head + "...";
    assert r[..|r| - 3] == head;
  }

  /** The capitalised title starts with the first character of the cleaned text, which is not whitespace. */
  lemma TitleStartsSolid(cleaned: string)
    requires cleaned != [] && !IsWhitespace(cleaned[0])
    ensures var titled := Capitalize(Join(ShortTitle(cleaned), " "));
      titled != [] && !IsWhitespace(titled[0])
  {
    var pieces := Split(cleaned, ' ');
    var words := NonEmpty(pieces);
    var k := IndexOf(cleaned, ' ');
    assert k != 0;
    assert pieces[0] != [] && pieces[0][0] == cleaned[0];
    assert words[0] == pieces[0];
    var short := ShortTitle(cleaned);
    assert short[0] == words[0];
    var joined := Join(short, " ");
    assert joined[0] == short[0][0] by {
      if |short| > 1 {
        assert joined == short[0] + " " + Join(short[1..], " ");
      }
    }
    assert Capitalize(joined)[0] == UpperChar(cleaned[0]);
  }

  /** The request's message text: `body.text` trimmed, refused (None) when it is not a string or blank. */
  function MessageText(body: Json): (r: Option<string>)
    ensures GetString(body, "text").None? ==> r.None?
    ensures GetString(body, "text").Some? ==> r == NonBlank(GetString(body, "text").value)
  {
    var text := GetString(body, "text");
    if text.None? then None else NonBlank(text.value)
  }

  /** The trimmed text, or None when nothing but whitespace is left. */
  function NonBlank(s: string): (r: Option<string>)
    ensures r.None? <==> AllWhitespace(s)
    ensures r.Some? ==> r.value != [] && !IsWhitespace(r.value[0]) && !IsWhitespace(r.value[|r.value| - 1])
  {
    var t := Trim(s);
    if t == [] then None else Some(t)
  }

  /** A thread is renamed from its first message only while it is empty and still titled "New thread" (any case). */
  predicate ShouldRetitle(messageCount: int, title: string) {
    messageCount == 0 && Lower(Trim(title)) == Lower(NewThreadTitle)
  }

  /** A blank first message would give the fallback title, which still qualifies for renaming. */
  lemma FallbackTitleRetitles()
    ensures ShouldRetitle(0, NewThreadTitle)
  {
    TrimOfTrimmed(NewThreadTitle);
  }

  // ---------------------------------------------------------------------
  // Progress labels
  // ---------------------------------------------------------------------

  /** A label the client can show: something other than whitespace. */
  predicate Shown(s: string) {
    s != [] && !IsWhitespace(s[0])
  }

  lemma ShownNotBlank(s: string)
    requires Shown(s)
    ensures Trim(s) != []
  {
    assert !AllWhitespace(s);
  }

  /** The label for a tool event that has no user log line. */
  function FallbackToolLabel(eventName: string, rawName: string): (r: string)
    ensures Shown(r)
    ensures eventName == "tool_output" ==> StartsWith(r, "Finished ") && |r| == 9 + |rawName| + 1 && r[|r| - 1] == '.'
    ensures eventName != "tool_output" ==> StartsWith(r, "Running ") && |r| == 8 + |rawName| + 3 && r[|r| - 3..] == "..."
    ensures var start := if eventName == "tool_output" then 9 else 8;
      forall i :: 0 <= i < |rawName| ==> r[start + i] == if rawName[i] == '_' then ' ' else rawName[i]
  {
    if eventName == "tool_output" then "Finished " + ReplaceChar(rawName, '_', ' ') + "."
    else "Running " + ReplaceChar(rawName, '_', ' ') + "..."
  }

  function AgentLabel(agentName: Option<string>): (r: string)
    ensures Shown(r)
  {
    "Using " + agentName.GetOr("assistant") + "..."
  }

  const AnalyzingLabel: string := "Analyzing your request..."
  const RefiningLabel: string := "Refining the recommendation..."

  predicate IsToolEventName(name: string) {
    name == "tool_called" || name == "tool_output"
  }

  /** The label of a tool event: its user log line when that is not blank, otherwise a generic one. */
  function ToolProgressLabel(name: string, item: RunStreamUtils.StreamEvent): string
    requires item.RunItemEvent?
  {
    var fromLabels := RunStreamUtils.GetLogLineFromEvent(item, RunStreamUtils.User);
    if Trim(fromLabels) != [] then fromLabels else FallbackToolLabel(name, RunStreamUtils.GetToolName(item.item))
  }

  /** `getProgressLabel(event)`: None means no progress frame. */
  function GetProgressLabel(e: RunStreamUtils.StreamEvent): (r: Option<string>)
    ensures e.OtherEvent? ==> r.None?
    ensures e.RunItemEvent? ==> (r.Some? <==> e.name == "reasoning_item_created" || IsToolEventName(e.name))
    ensures e.RunItemEvent? && e.name == "reasoning_item_created" ==> r == Some("Analyzing your request...")
    ensures e.RunItemEvent? && IsToolEventName(e.name) ==>
      var line := RunStreamUtils.GetLogLineFromEvent(e, RunStreamUtils.User);
      r == Some(if Trim(line) != [] then line else FallbackToolLabel(e.name, RunStreamUtils.GetToolName(e.item)))
    ensures e.AgentUpdated? ==> r == Some("Using " + e.agentName.GetOr("assistant") + "...")
    ensures e.RawModelEvent? ==>
      var t := GetString(e.data, "type");
      r == if t.Some? && Contains(t.value, "reflection") then Some("Refining the recommendation...") else None
  {
    match e
    case RunItemEvent(name, item) =>
      if name == "reasoning_item_created" then Some(AnalyzingLabel)
      else if IsToolEventName(name) then Some(ToolProgressLabel(name, e))
      else None
    case AgentUpdated(agentName) => Some(AgentLabel(agentName))
    case RawModelEvent(data) =>
      var t := GetString(data, "type");
      if t.Some? && Contains(t.value, "reflection") then Some(RefiningLabel) else None
    case OtherEvent(_) => None
  }

  lemma AnalyzingShown()
    ensures Shown(AnalyzingLabel)
  {
  }

  lemma RefiningShown()
    ensures Shown(RefiningLabel)
  {
  }

  /** Every progress label the endpoint sends has visible text. */
  lemma ProgressLabelNotBlank(e: RunStreamUtils.StreamEvent)
    requires GetProgressLabel(e).Some?
    ensures Trim(GetProgressLabel(e).value) != []
  {
    var r := GetProgressLabel(e);
    match e
    case RunItemEvent(name, item) =>
      if name == "reasoning_item_created" {
        AnalyzingShown();
        ShownNotBlank(r.value);
      } else {
        var fromLabels := RunStreamUtils.GetLogLineFromEvent(e, RunStreamUtils.User);
        if Trim(fromLabels) == [] {
          ShownNotBlank(r.value);
        }
      }
    case AgentUpdated(agentName) =>
      ShownNotBlank(r.value);
    case RawModelEvent(data) =>
      RefiningShown();
      ShownNotBlank(r.value);
  }

  /** A tool event's own user log line is the label when it is not blank. */
  lemma ProgressUsesLogLine(name: string, item: Json)
    requires IsToolEventName(name)
    requires Trim(RunStreamUtils.DescribeToolEvent(name, item, RunStreamUtils.User)) != []
    ensures GetProgressLabel(RunStreamUtils.RunItemEvent(name, item))
      == Some(RunStreamUtils.DescribeToolEvent(name, item, RunStreamUtils.User))
  {
    RunStreamUtils.ToolEventLine(name, item, RunStreamUtils.User);
  }

  /** The progress phase: "done" only for a tool output. */
  function Phase(e: RunStreamUtils.StreamEvent): (r: string)
    ensures r == "done" <==> e.RunItemEvent? && e.name == "tool_output"
    ensures r == "done" || r == "called"
  {
    if e.RunItemEvent? && e.name == "tool_output" then "done" else "called"
  }

  // ---------------------------------------------------------------------
  // The streaming endpoint
  // ---------------------------------------------------------------------

  /** A frame before rendering: its event name and JSON data. */
  datatype Frame = Frame(event: string, data: Json)

  function Render(frames: seq<Frame>): (r: seq<string>)
    ensures |r| == |frames|
    ensures forall i :: 0 <= i < |frames| ==> r[i] == SseFrame(frames[i].event, frames[i].data)
  {
    if frames == [] then [] else [SseFrame(frames[0].event, frames[0].data)] + Render(frames[1..])
  }

  lemma RenderAppend(a: seq<Frame>, b: seq<Frame>)
    ensures Render(a + b) == Render(a) + Render(b)
  {
    assert forall i :: 0 <= i < |a| ==> (a + b)[i] == a[i];
    assert forall i :: |a| <= i < |a + b| ==> (a + b)[i] == b[i - |a|];
  }

  function TokenFrame(delta: string): Frame {
    Frame("token", JObj([("delta", JStr(delta))]))
  }

  function ProgressFrame(phase: string, text: string): Frame {
    Frame("progress", JObj([("phase", JStr(phase)), ("label", JStr(text))]))
  }

  /** The frames for one event given its delta and label: the token first, then the progress. */
  function FramesFor(delta: string, progress: Option<string>, phase: string): (r: seq<Frame>)
    ensures forall i :: 0 <= i < |r| ==> r[i].event == "token" || r[i].event == "progress"
  {
    (if delta != "" then [TokenFrame(delta)] else [])
      + (if progress.Some? then [ProgressFrame(phase, progress.value)] else [])
  }

  /** The frames one upstream event produces. */
  function EventFrames(e: RunStreamUtils.StreamEvent): (r: seq<Frame>) {
    FramesFor(RunStreamUtils.GetTextDeltaFromEvent(e), GetProgressLabel(e), Phase(e))
  }

  function BodyFrames(events: seq<RunStreamUtils.StreamEvent>): (r: seq<Frame>)
    ensures forall i :: 0 <= i < |r| ==> r[i].event == "token" || r[i].event == "progress"
  {
    if events == [] then [] else BodyFrames(events[..|events| - 1]) + EventFrames(events[|events| - 1])
  }

  /** The assistant text: the events' deltas, in order. */
  function AssistantText(events: seq<RunStreamUtils.StreamEvent>): string {
    if events == [] then "" else AssistantText(events[..|events| - 1]) + RunStreamUtils.GetTextDeltaFromEvent(events[|events| - 1])
  }

  /** How the run ends: it completes, or it fails (with a message) after delivering some events. */
  datatype Upstream = Upstream(events: seq<RunStreamUtils.StreamEvent>, failure: Option<string>)

  /** A stored assistant message: its content and whether it is marked interrupted. */
  datatype Persisted = Persisted(content: string, interrupted: bool)

  const FallbackReply: string := "Sorry, I could not generate a response."

  function StartData(userMessageId: string, assistantMessageId: string, createdAt: string): Json {
    JObj([("userMessageId", JStr(userMessageId)), ("assistantMessageId", JStr(assistantMessageId)), ("createdAt", JStr(createdAt))])
  }

  function EndFrame(up: Upstream, assistantMessageId: string): (r: Frame)
    ensures r.event == (if up.failure.None? then "done" else "error")
  {
    if up.failure.None? then Frame("done", JObj([("assistantMessageId", JStr(assistantMessageId))]))
    else Frame("error", JObj([("message", JStr(up.failure.value))]))
  }

  /** The frames the endpoint means to send, in order. */
  function IntendedFrames(start: Json, up: Upstream, assistantMessageId: string): seq<Frame> {
    [Frame("message_start", start)] + BodyFrames(up.events) + [EndFrame(up, assistantMessageId)]
  }

  /** What the endpoint stores for the assistant. */
  function PersistedReply(up: Upstream): Option<Persisted> {
    StoredReply(up.failure.Some?, AssistantText(up.events))
  }

  /** The stored reply after a completed (`failed` false) or failed run that produced `text`. */
  function StoredReply(failed: bool, text: string): Option<Persisted> {
    if !failed then Some(Persisted(if Trim(text) != [] then Trim(text) else FallbackReply, false))
    else if Trim(text) != [] then Some(Persisted(text, true))
    else None
  }

  /**
   * A completed run always stores a reply, trimmed and never blank; a failed
   * run stores its partial text as it is, marked interrupted, and only when
   * that text is not blank.
   */
  lemma StoredReplyCases(failed: bool, text: string)
    ensures StoredReply(failed, text).Some? ==> Trim(StoredReply(failed, text).value.content) != []
    ensures !failed ==>
      && StoredReply(failed, text).Some? && !StoredReply(failed, text).value.interrupted
      && Trim(StoredReply(failed, text).value.content) == StoredReply(failed, text).value.content
    ensures failed ==> (StoredReply(failed, text).Some? <==> Trim(text) != [])
    ensures failed && StoredReply(failed, text).Some? ==>
      StoredReply(failed, text).value == Persisted(text, true)
  {
    var t := Trim(text);
    if !failed {
      if t != [] {
        TrimOfTrimmed(t);
      } else {
        assert !IsWhitespace(FallbackReply[0]) && !IsWhitespace(FallbackReply[|FallbackReply| - 1]);
        TrimOfTrimmed(FallbackReply);
      }
    }
  }

  datatype StreamOutcome = StreamOutcome(sent: seq<string>, persisted: Option<Persisted>, closeCalled: bool)

  /** The first `n` frames, or all of them when `n` is absent. */
  function Take(frames: seq<string>, n: Option<nat>): (r: seq<string>)
    ensures |r| <= |frames| && r == frames[..|r|]
  {
    if n.Some? && n.value < |frames| then frames[..n.value] else frames
  }

  /**
   * `safeEnqueue`: nothing once closed; a refused enqueue closes. The
   * consumer accepts `capacity` frames in all, or every frame when absent.
   */
  method SafeEnqueue(sent: seq<string>, closed: bool, capacity: Option<nat>, chunk: string)
    returns (sent': seq<string>, closed': bool)
    ensures closed ==> sent' == sent && closed'
    ensures !closed && (capacity.None? || |sent| < capacity.value) ==> sent' == sent + [chunk] && !closed'
    ensures !closed && capacity.Some? && |sent| >= capacity.value ==> sent' == sent && closed'
  {
    if closed {
      return sent, true;
    }
    if capacity.Some? && |sent| >= capacity.value {
      return sent, true;
    }
    sent', closed' := sent + [chunk], false;
  }

  /** The channel holds the prefix of `target` the consumer accepted, and is closed once it refused one. */
  predicate Delivered(sent: seq<string>, closed: bool, target: seq<string>, capacity: Option<nat>) {
    sent == Take(target, capacity) && (closed <==> capacity.Some? && capacity.value < |target|)
  }

  /** One `safeEnqueue` extends the delivered prefix by the next frame. */
  lemma EnqueueStep(sent: seq<string>, closed: bool, target: seq<string>, capacity: Option<nat>,
                    chunk: string, sent': seq<string>, closed': bool)
    requires Delivered(sent, closed, target, capacity)
    requires closed ==> sent' == sent && closed'
    requires !closed && (capacity.None? || |sent| < capacity.value) ==> sent' == sent + [chunk] && !closed'
    requires !closed && capacity.Some? && |sent| >= capacity.value ==> sent' == sent && closed'
    ensures Delivered(sent', closed', target + [chunk], capacity)
  {
    if capacity.Some? && capacity.value < |target| + 1 {
      assert (target + [chunk])[..capacity.value] == target[..capacity.value];
    }
  }

  /** The loop body for one upstream event: its token frame, then its progress frame. */
  method SendEvent(e: RunStreamUtils.StreamEvent, ghost target: seq<string>,
                   sent: seq<string>, closed: bool, capacity: Option<nat>)
    returns (sent': seq<string>, closed': bool, delta: string)
    requires Delivered(sent, closed, target, capacity)
    ensures delta == RunStreamUtils.GetTextDeltaFromEvent(e)
    ensures Delivered(sent', closed', target + Render(EventFrames(e)), capacity)
  {
    delta := RunStreamUtils.GetTextDeltaFromEvent(e);
    var progress := GetProgressLabel(e);
    var phase := Phase(e);
    sent', closed' := SendFrames(delta, progress, phase, target, sent, closed, capacity);
  }

  /** Enqueues the token frame of `delta`, when there is one, then the progress frame of `progress`, when there is one. */
  method SendFrames(delta: string, progress: Option<string>, phase: string, ghost target: seq<string>,
                    sent: seq<string>, closed: bool, capacity: Option<nat>)
    returns (sent': seq<string>, closed': bool)
    requires Delivered(sent, closed, target, capacity)
    ensures Delivered(sent', closed', target + Render(FramesFor(delta, progress, phase)), capacity)
  {
    sent', closed' := sent, closed;
    ghost var added: seq<Frame> := [];
    if delta != "" {
      var chunk := SseFrame("token", JObj([("delta", JStr(delta))]));
      var s1, c1 := SafeEnqueue(sent', closed', capacity, chunk);
      EnqueueStep(sent', closed', target, capacity, chunk, s1, c1);
      added := [TokenFrame(delta)];
      RenderOne(TokenFrame(delta));
      sent', closed' := s1, c1;
    } else {
      assert target + Render(added) == target;
    }
    ghost var mid := target + Render(added);
    if progress.Some? {
      var chunk := SseFrame("progress", JObj([("phase", JStr(phase)), ("label", JStr(progress.value))]));
      var s1, c1 := SafeEnqueue(sent', closed', capacity, chunk);
      EnqueueStep(sent', closed', mid, capacity, chunk, s1, c1);
      RenderOne(ProgressFrame(phase, progress.value));
      RenderAppend(added, [ProgressFrame(phase, progress.value)]);
      ConcatAssociative(target, Render(added), [chunk]);
      added := added + [ProgressFrame(phase, progress.value)];
      sent', closed' := s1, c1;
    }
    assert added == FramesFor(delta, progress, phase);
  }

  lemma RenderOne(f: Frame)
    ensures Render([f]) == [SseFrame(f.event, f.data)]
  {
  }

  /** The rendered frames up to and including event `i`. */
  lemma IntendedSnoc(events: seq<RunStreamUtils.StreamEvent>, i: nat, start: Json)
    requires i < |events|
    ensures Render([Frame("message_start", start)] + BodyFrames(events[..i + 1]))
      == Render([Frame("message_start", start)] + BodyFrames(events[..i])) + Render(EventFrames(events[i]))
  {
    BodyFramesSnoc(events, i, start);
    ConcatAssociative([Frame("message_start", start)], BodyFrames(events[..i]), EventFrames(events[i]));
    RenderAppend([Frame("message_start", start)] + BodyFrames(events[..i]), EventFrames(events[i]));
  }

  lemma AssistantTextSnoc(events: seq<RunStreamUtils.StreamEvent>, i: nat)
    requires i < |events|
    ensures AssistantText(events[..i + 1]) == AssistantText(events[..i]) + RunStreamUtils.GetTextDeltaFromEvent(events[i])
  {
    assert events[..i + 1][..i] == events[..i];
  }

  /**
   * `handleStreamMessageRequest`'s stream for one run: the channel receives
   * a prefix of the intended frames (all of them unless the consumer
   * refuses one), the reply is stored as `PersistedReply` says, and the
   * controller is closed only when no enqueue was refused.
   */
  method StreamMessage(userMessageId: string, assistantMessageId: string, createdAt: string,
                       up: Upstream, capacity: Option<nat>)
    returns (out: StreamOutcome)
    ensures var frames := IntendedFrames(StartData(userMessageId, assistantMessageId, createdAt), up, assistantMessageId);
      out.sent == Take(Render(frames), capacity)
      && (out.closeCalled <==> capacity.None? || capacity.value >= |frames|)
    ensures out.persisted == PersistedReply(up)
  {
    var start := StartData(userMessageId, assistantMessageId, createdAt);
    var sent, closed, assistantText := StreamBody(start, up.events, capacity);
    var persisted := StoredReply(up.failure.Some?, assistantText);
    var last := EndFrame(up, assistantMessageId);
    var s', c' := SafeEnqueue(sent, closed, capacity, SseFrame(last.event, last.data));
    ghost var body := [Frame("message_start", start)] + BodyFrames(up.events);
    EnqueueStep(sent, closed, Render(body), capacity, SseFrame(last.event, last.data), s', c');
    EndRendered(start, up, assistantMessageId);
    out := StreamOutcome(s', persisted, !c');
  }

  /** The `message_start` frame and the loop over the upstream events, collecting the assistant text. */
  method StreamBody(start: Json, events: seq<RunStreamUtils.StreamEvent>, capacity: Option<nat>)
    returns (sent: seq<string>, closed: bool, assistantText: string)
    ensures Delivered(sent, closed, Render([Frame("message_start", start)] + BodyFrames(events)), capacity)
    ensures assistantText == AssistantText(events)
  {
    sent, closed := SafeEnqueue([], false, capacity, SseFrame("message_start", start));
    EnqueueStep([], false, [], capacity, SseFrame("message_start", start), sent, closed);
    assert Render([Frame("message_start", start)] + BodyFrames(events[..0])) == [SseFrame("message_start", start)];
    assistantText := "";
    var i := 0;
    while i < |events|
      invariant 0 <= i <= |events|
      invariant assistantText == AssistantText(events[..i])
      invariant Delivered(sent, closed, Render([Frame("message_start", start)] + BodyFrames(events[..i])), capacity)
    {
      var delta;
      IntendedSnoc(events, i, start);
      AssistantTextSnoc(events, i);
      sent, closed, delta := SendEvent(events[i],
        Render([Frame("message_start", start)] + BodyFrames(events[..i])), sent, closed, capacity);
      assistantText := assistantText + delta;
      i := i + 1;
    }
    assert events[..i] == events;
  }

  lemma EndRendered(start: Json, up: Upstream, assistantMessageId: string)
    ensures var last := EndFrame(up, assistantMessageId);
      Render(IntendedFrames(start, up, assistantMessageId))
        == Render([Frame("message_start", start)] + BodyFrames(up.events)) + [SseFrame(last.event, last.data)]
  {
    var last := EndFrame(up, assistantMessageId);
    RenderAppend([Frame("message_start", start)] + BodyFrames(up.events), [last]);
  }

  lemma BodyFramesSnoc(events: seq<RunStreamUtils.StreamEvent>, i: nat, start: Json)
    requires i < |events|
    ensures BodyFrames(events[..i + 1]) == BodyFrames(events[..i]) + EventFrames(events[i])
  {
    assert events[..i + 1][..i] == events[..i];
  }

  /** The first frame is `message_start`; the run ends with exactly one of `done` and `error`, as the last frame. */
  lemma FrameOrder(start: Json, up: Upstream, assistantMessageId: string)
    ensures var f := IntendedFrames(start, up, assistantMessageId);
      && |f| >= 2 && f[0].event == "message_start"
      && (up.failure.None? ==> f[|f| - 1].event == "done")
      && (up.failure.Some? ==> f[|f| - 1].event == "error")
      && (forall i :: 0 < i < |f| - 1 ==> f[i].event == "token" || f[i].event == "progress")
  {
    var f := IntendedFrames(start, up, assistantMessageId);
    var body := BodyFrames(up.events);
    var end := EndFrame(up, assistantMessageId);
    var head := [Frame("message_start", start)] + body;
    assert f == head + [end];
    assert |f| == |body| + 2;
    assert f[0] == head[0];
    assert f[|f| - 1] == end;
    forall i | 0 < i < |f| - 1 ensures f[i].event == "token" || f[i].event == "progress" {
      assert f[i] == head[i] == body[i - 1];
    }
  }

  /** The delta a token frame carries; other frames carry none. */
  function FrameText(f: Frame): string {
    if f.event == "token" && GetString(f.data, "delta").Some? then GetString(f.data, "delta").value else ""
  }

  /** The text the token frames carry, in order. */
  function TokenText(frames: seq<Frame>): string {
    if frames == [] then "" else TokenText(frames[..|frames| - 1]) + FrameText(frames[|frames| - 1])
  }

  lemma TokenTextSnoc(a: seq<Frame>, f: Frame)
    ensures TokenText(a + [f]) == TokenText(a) + FrameText(f)
  {
    assert (a + [f])[..|a|] == a;
  }

  lemma {:induction false} TokenTextAppend(a: seq<Frame>, b: seq<Frame>)
    ensures TokenText(a + b) == TokenText(a) + TokenText(b)
    decreases |b|
  {
    if b == [] {
      assert a + b == a;
    } else {
      var init, f := b[..|b| - 1], b[|b| - 1];
      assert b == init + [f];
      assert a + b == (a + init) + [f];
      TokenTextSnoc(a + init, f);
      TokenTextSnoc(init, f);
      TokenTextAppend(a, init);
      ConcatAssociative(TokenText(a), TokenText(init), FrameText(f));
    }
  }

  lemma FramesForTokenText(delta: string, progress: Option<string>, phase: string)
    ensures TokenText(FramesFor(delta, progress, phase)) == delta
  {
    var t := if delta != "" then [TokenFrame(delta)] else [];
    var p := if progress.Some? then [ProgressFrame(phase, progress.value)] else [];
    TokenTextAppend(t, p);
    if delta != "" {
      assert t[..0] == [];
      assert GetString(t[0].data, "delta") == Some(delta);
    }
    if progress.Some? {
      assert p[..0] == [];
    }
  }

  /** Every delta goes out as a token frame in upstream order: the token frames spell the assistant text. */
  lemma {:induction false} TokensSpellAssistantText(events: seq<RunStreamUtils.StreamEvent>)
    ensures TokenText(BodyFrames(events)) == AssistantText(events)
  {
    if events != [] {
      var init := events[..|events| - 1];
      var e := events[|events| - 1];
      TokensSpellAssistantText(init);
      TokenTextAppend(BodyFrames(init), EventFrames(e));
      FramesForTokenText(RunStreamUtils.GetTextDeltaFromEvent(e), GetProgressLabel(e), Phase(e));
    }
  }
}
