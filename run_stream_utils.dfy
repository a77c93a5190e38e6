/**
 * Classification of agent stream events into text deltas and log lines
 * (lib/run-stream-utils.ts), for the command-line log and for the progress
 * labels shown to users.
 */
module RunStreamUtils {
  import opened Wrappers
  import opened Strings
  import opened Json

  /** The tools whose payloads are hidden from logs (this file's own set). */
  const LargeIntervalTools: set<string> := {
    "list_intervals_activities", "get_intervals_activity", "get_intervals_activity_intervals",
    "list_intervals_chat_messages", "list_intervals_wellness_records"
  }

  datatype Audience = Cli | User

  /** The stream events of an agent run, reduced to the fields read here. */
  datatype StreamEvent =
    | RunItemEvent(name: string, item: Json)
    | AgentUpdated(agentName: Option<string>)
    | RawModelEvent(data: Json)
    | OtherEvent(kind: string)

  const Ellipsis: char := '\U{2026}'
  const DefaultMax: nat := 280

  /** `truncate(text, max)` */
  function Truncate(text: string, max: nat): (r: string)
    ensures |text| <= max ==> r == text
    ensures |text| > max ==> |r| == max + 1 && r[..max] == text[..max] && r[max] == Ellipsis
  {
    if |text| > max then text[..max] + [Ellipsis] else text
  }

  /** What one content entry contributes: its `text` when that is a string. */
  function EntryText(e: Json): string {
    if e.JObj? && GetString(e, "text").Some? then GetString(e, "text").value else ""
  }

  function ConcatTexts(es: seq<Json>): string {
    if es == [] then "" else EntryText(es[0]) + ConcatTexts(es[1..])
  }

  /** `extractContentText(content)`: "" unless an array. */
  function ExtractContentText(content: Json): (r: string)
    ensures !content.JArr? ==> r == ""
  {
    if content.JArr? then ConcatTexts(content.elems) else ""
  }

  /** The text of a content list is the texts of its parts, in order. */
  lemma {:induction false} ConcatTextsAppend(a: seq<Json>, b: seq<Json>)
    ensures ConcatTexts(a + b) == ConcatTexts(a) + ConcatTexts(b)
  {
    if a == [] {
      assert a + b == b;
    } else {
      assert (a + b)[0] == a[0];
      assert (a + b)[1..] == a[1..] + b;
      ConcatTextsAppend(a[1..], b);
    }
  }

  /** One entry contributes its string `text`, and nothing otherwise. */
  lemma ConcatTextsSingle(e: Json)
    ensures ConcatTexts([e]) == if e.JObj? && GetString(e, "text").Some? then GetString(e, "text").value else ""
  {
    assert [e][1..] == [];
  }

  predicate IsLargeIntervalsTool(name: string) {
    name != "" && name in LargeIntervalTools
  }

  /** `getToolName(item)`: `item.rawItem.name` when it is a string, otherwise "tool". */
  function GetToolName(item: Json): (r: string)
    ensures var raw := Get(item, "rawItem");
      r == if raw.Some? && GetString(raw.value, "name").Some? then GetString(raw.value, "name").value else "tool"
  {
    var raw := Get(item, "rawItem");
    if raw.Some? then GetString(raw.value, "name").GetOr("tool") else "tool"
  }

  /** `getTextDeltaFromEvent`: the delta of an output-text model event, otherwise "". */
  function GetTextDeltaFromEvent(e: StreamEvent): (r: string)
    ensures r != "" ==>
      (e.RawModelEvent? && GetString(e.data, "delta") == Some(r)
       && GetString(e.data, "type").Some? && Contains(GetString(e.data, "type").value, "output_text"))
    ensures e.RawModelEvent? && GetString(e.data, "type").Some?
      && Contains(GetString(e.data, "type").value, "output_text") && GetString(e.data, "delta").Some?
      ==> r == GetString(e.data, "delta").value
  {
    if !e.RawModelEvent? then ""
    else
      var t := GetString(e.data, "type");
      var d := GetString(e.data, "delta");
      if t.Some? && Contains(t.value, "output_text") && d.Some? then d.value else ""
  }

  /** An entry of `TOOL_LABELS`. */
  datatype ToolLabels = ToolLabels(
    cliCall: Option<string>, cliDone: Option<string>,
    userCall: Option<string>, userDone: Option<string>, hideUser: bool)

  const NoLabels := ToolLabels(None, None, None, None, false)

  /** `TOOL_LABELS`, in its own order. */
  const ToolLabelTable: seq<(string, ToolLabels)> := [
    ("get_current_time", ToolLabels(None, None, Some(""), Some(""), false)),
    ("list_intervals_activities",
     ToolLabels(Some("[tool] Calling list_intervals_activities (large payload hidden)"),
                Some("[tool] list_intervals_activities finished (output hidden)"),
                Some("Fetching your recent activities\U{2026}"), Some("Activities ready."), false)),
    ("get_intervals_activity_intervals",
     ToolLabels(Some("[tool] Calling get_intervals_activity_intervals (large payload hidden)"),
                Some("[tool] get_intervals_activity_intervals finished (output hidden)"),
                Some("Pulling detailed interval data\U{2026}"), Some("Interval details ready."), false)),
    ("list_intervals_chat_messages",
     ToolLabels(Some("[tool] Calling list_intervals_chat_messages (large payload hidden)"),
                Some("[tool] list_intervals_chat_messages finished (output hidden)"),
                Some("Loading your chat history\U{2026}"), Some("Chat history loaded."), false)),
    ("add_intervals_activity_comment",
     ToolLabels(None, None, Some("Posting your note to the activity\U{2026}"), Some("Note posted."), false)),
    ("get_intervals_activity",
     ToolLabels(Some("[tool] Calling get_intervals_activity (large payload hidden)"),
                Some("[tool] get_intervals_activity finished (output hidden)"),
                Some("Loading the full activity details\U{2026}"), Some("Activity details ready."), false)),
    ("get_intervals_wellness_record",
     ToolLabels(Some("[tool] Calling get_intervals_wellness_record"),
                Some("[tool] get_intervals_wellness_record completed"),
                Some("Reviewing the wellness record for that day\U{2026}"), Some("Wellness record ready."), false)),
    ("list_intervals_wellness_records",
     ToolLabels(Some("[tool] Calling list_intervals_wellness_records (large payload hidden)"),
                Some("[tool] list_intervals_wellness_records finished (output hidden)"),
                Some("Fetching those wellness records\U{2026}"), Some("Wellness history ready."), false)),
    ("get_local_weather_forecast",
     ToolLabels(Some("[tool] Calling get_local_weather_forecast"),
                Some("[tool] get_local_weather_forecast completed"),
                Some("Checking the local weather forecast\U{2026}"), Some("Forecast ready."), false))
  ]

  function LookupLabels(table: seq<(string, ToolLabels)>, name: string): (r: Option<ToolLabels>)
    ensures r.Some? ==> exists i :: 0 <= i < |table| && table[i] == (name, r.value)
    ensures r.None? ==> forall i :: 0 <= i < |table| ==> table[i].0 != name
  {
    if table == [] then None
    else if table[0].0 == name then Some(table[0].1)
    else LookupLabels(table[1..], name)
  }

  /** `TOOL_LABELS[name]` */
  function LabelsFor(name: string): Option<ToolLabels> {
    LookupLabels(ToolLabelTable, name)
  }

  /** `describeToolEvent`. */
  function DescribeToolEvent(eventName: string, item: Json, audience: Audience): (r: string)
    ensures r == [] || (!IsWhitespace(r[0]) && !IsWhitespace(r[|r| - 1]))
    ensures eventName != "tool_called" && eventName != "tool_output" ==> r == ""
  {
    var name := GetToolName(item);
    DescribeTool(eventName, name, LabelsFor(name), audience)
  }

  /** The body of `describeToolEvent` for a tool name and its table entry: a table label wins, even an empty one. */
  function DescribeTool(eventName: string, name: string, entry: Option<ToolLabels>, audience: Audience): (r: string)
    ensures r == [] || (!IsWhitespace(r[0]) && !IsWhitespace(r[|r| - 1]))
    ensures eventName != "tool_called" && eventName != "tool_output" ==> r == ""
    ensures audience == User && entry.Some? && entry.value.hideUser ==> r == ""
  {
    var hidden := IsLargeIntervalsTool(name);
    var labels := entry.GetOr(NoLabels);
    var callLabel :=
      if audience == User then labels.userCall.GetOr(if hidden then "" else "Running " + name + [Ellipsis])
      else labels.cliCall.GetOr(if hidden then "[tool] Calling " + name + " (output hidden)" else "[tool] Calling " + name);
    var doneLabel :=
      if audience == User then labels.userDone.GetOr(if hidden then "" else name + " done.")
      else labels.cliDone.GetOr(if hidden then "[tool] " + name + " finished (output hidden)" else "[tool] " + name + " completed");
    if audience == User && labels.hideUser then ""
    else if eventName == "tool_called" || eventName == "tool_output" then
      Trim(if eventName == "tool_called" then callLabel else doneLabel)
    else ""
  }

  /** `describeReasoningItem`: the reasoning text for the command line only. */
  function DescribeReasoningItem(item: Json, audience: Audience): (r: string)
    ensures audience == User ==> r == ""
  {
    if audience == User then ""
    else
      var raw := Get(item, "rawItem");
      var content := if raw.Some? then Get(raw.value, "content") else None;
      var text := if content.Some? then ExtractContentText(content.value) else "";
      if Trim(text) == "" then "" else "[thinking] " + Truncate(Trim(text), DefaultMax)
  }

  /** `describeHandoffEvent`: for the command line only. */
  function DescribeHandoffEvent(eventName: string, item: Json, audience: Audience): (r: string)
    ensures audience == User ==> r == ""
  {
    if audience == User then ""
    else
      var agent := Get(item, "agent");
      var target := if agent.Some? then Get(agent.value, "name") else None;
      var named := target.Some? && Truthy(target.value);
      if eventName == "handoff_requested" then
        if named then "[handoff] Requesting " + JsString(target.value) else "[handoff] Requesting downstream agent"
      else if eventName == "handoff_occurred" then
        if named then "[handoff] Handed off to " + JsString(target.value) else "[handoff] Handed off"
      else ""
  }

  predicate IsReflectionEvent(e: StreamEvent) {
    && e.RawModelEvent?
    && GetString(e.data, "type").Some? && Contains(GetString(e.data, "type").value, "reflection")
    && GetString(e.data, "delta").Some?
  }

  /**
   * `getLogLineFromEvent`: users never see reasoning, handoffs, agent
   * switches or reflections, and every event kind not listed gives "".
   */
  function GetLogLineFromEvent(e: StreamEvent, audience: Audience): (r: string)
    ensures (audience == User && e.RunItemEvent?
             && e.name in {"reasoning_item_created", "handoff_requested", "handoff_occurred"}) ==> r == ""
    ensures audience == User && (e.AgentUpdated? || e.RawModelEvent?) ==> r == ""
    ensures e.OtherEvent? ==> r == ""
    ensures (e.RunItemEvent? && !(e.name in {"reasoning_item_created", "tool_called", "tool_output",
                                             "handoff_requested", "handoff_occurred"})) ==> r == ""
    ensures e.RawModelEvent? && !IsReflectionEvent(e) ==> r == ""
  {
    match e
    case RunItemEvent(name, item) =>
      if name == "reasoning_item_created" then DescribeReasoningItem(item, audience)
      else if name == "tool_called" || name == "tool_output" then DescribeToolEvent(name, item, audience)
      else if name == "handoff_requested" || name == "handoff_occurred" then DescribeHandoffEvent(name, item, audience)
      else ""
    case AgentUpdated(agentName) =>
      if audience == Cli then "[agent] Switched to " + agentName.GetOr("undefined") else ""
    case RawModelEvent(data) =>
      if IsReflectionEvent(e) then
        if audience == Cli then "[thinking] " + Truncate(Trim(GetString(data, "delta").value), DefaultMax) else ""
      else ""
    case OtherEvent(_) => ""
  }

  /** Tool events are described by `describeToolEvent`. */
  lemma ToolEventLine(eventName: string, item: Json, audience: Audience)
    requires eventName == "tool_called" || eventName == "tool_output"
    ensures GetLogLineFromEvent(RunItemEvent(eventName, item), audience) == DescribeToolEvent(eventName, item, audience)
  {
    assert |eventName| != |"reasoning_item_created"|;
  }

  lemma CurrentTimeEntry()
    ensures LabelsFor("get_current_time") == Some(ToolLabels(None, None, Some(""), Some(""), false))
  {
    LookupPrefix(ToolLabelTable, 0, "get_current_time");
  }

  /** `get_current_time` has empty user labels, and a table label wins even when empty. */
  lemma CurrentTimeSilentForUsers(item: Json, eventName: string)
    requires GetToolName(item) == "get_current_time"
    ensures DescribeToolEvent(eventName, item, User) == ""
  {
    CurrentTimeEntry();
    CurrentTimeLine(eventName);
  }

  lemma CurrentTimeLine(eventName: string)
    ensures DescribeTool(eventName, "get_current_time", Some(ToolLabels(None, None, Some(""), Some(""), false)), User) == ""
  {
    assert Trim("") == "";
  }

  lemma UnlabelledCalled(name: string)
    ensures DescribeTool("tool_called", name, None, User)
      == Trim(if IsLargeIntervalsTool(name) then "" else "Running " + name + [Ellipsis])
  {
  }

  lemma UnlabelledOutput(name: string)
    ensures DescribeTool("tool_output", name, None, User)
      == Trim(if IsLargeIntervalsTool(name) then "" else name + " done.")
  {
  }

  /**
   * A tool without a table entry is announced to users as "Running name…"
   * and "name done.", unless it is a large tool, which is silent.
   */
  lemma UnlabelledToolLines(name: string)
    ensures DescribeTool("tool_called", name, None, User)
        == if IsLargeIntervalsTool(name) then "" else "Running " + name + [Ellipsis]
    ensures !IsLargeIntervalsTool(name) && name != [] && !IsWhitespace(name[0]) ==>
        DescribeTool("tool_output", name, None, User) == name + " done."
    ensures IsLargeIntervalsTool(name) ==> DescribeTool("tool_output", name, None, User) == ""
  {
    UnlabelledCalled(name);
    UnlabelledOutput(name);
    if IsLargeIntervalsTool(name) {
      assert Trim("") == "";
    } else {
      RunningLabelTrimmed(name);
      if name != [] && !IsWhitespace(name[0]) {
        DoneLabelTrimmed(name);
      }
    }
  }

  lemma RunningLabelTrimmed(name: string)
    ensures Trim("Running " + name + [Ellipsis]) == "Running " + name + [Ellipsis]
  {
    var s := "Running " + name + [Ellipsis];
    assert s[0] == 'R' && s[|s| - 1] == Ellipsis;
    TrimOfTrimmed(s);
  }

  lemma DoneLabelTrimmed(name: string)
    requires name != [] && !IsWhitespace(name[0])
    ensures Trim(name + " done.") == name + " done."
  {
    var d := name + " done.";
    assert d[0] == name[0] && d[|d| - 1] == '.';
    TrimOfTrimmed(d);
  }

  /** Labels for the user, both present and both non-empty. */
  predicate UserLabelled(labels: Option<ToolLabels>) {
    && labels.Some?
    && labels.value.userCall.Some? && labels.value.userCall.value != ""
    && labels.value.userDone.Some? && labels.value.userDone.value != ""
  }

  /** Every large tool of this file has a table entry with non-empty user labels. */
  lemma LargeToolsLabelled(name: string)
    requires IsLargeIntervalsTool(name)
    ensures LabelsFor(name).Some? && LabelsFor(name).value.userCall.Some? && LabelsFor(name).value.userCall.value != ""
    ensures LabelsFor(name).value.userDone.Some? && LabelsFor(name).value.userDone.value != ""
  {
    if name == "list_intervals_activities" {
      ActivitiesLabelled();
    } else if name == "get_intervals_activity_intervals" {
      ActivityIntervalsLabelled();
    } else if name == "list_intervals_chat_messages" {
      ChatMessagesLabelled();
    } else if name == "get_intervals_activity" {
      ActivityLabelled();
    } else {
      assert name == "list_intervals_wellness_records";
      WellnessRecordsLabelled();
    }
  }

  lemma ActivitiesLabelled()
    ensures UserLabelled(LabelsFor("list_intervals_activities"))
  {
    var t, name := ToolLabelTable, "list_intervals_activities";
    assert forall i :: 0 <= i < 1 ==> |t[i].0| != |name|;
    EntryLabelled(t, 1, name);
  }

  lemma ActivityIntervalsLabelled()
    ensures UserLabelled(LabelsFor("get_intervals_activity_intervals"))
  {
    var t, name := ToolLabelTable, "get_intervals_activity_intervals";
    assert forall i :: 0 <= i < 2 ==> |t[i].0| != |name|;
    EntryLabelled(t, 2, name);
  }

  lemma ChatMessagesLabelled()
    ensures UserLabelled(LabelsFor("list_intervals_chat_messages"))
  {
    var t, name := ToolLabelTable, "list_intervals_chat_messages";
    assert forall i :: 0 <= i < 3 ==> |t[i].0| != |name|;
    EntryLabelled(t, 3, name);
  }

  lemma ActivityLabelled()
    ensures UserLabelled(LabelsFor("get_intervals_activity"))
  {
    var t, name := ToolLabelTable, "get_intervals_activity";
    assert forall i :: 0 <= i < 5 ==> |t[i].0| != |name|;
    EntryLabelled(t, 5, name);
  }

  lemma WellnessRecordsLabelled()
    ensures UserLabelled(LabelsFor("list_intervals_wellness_records"))
  {
    var t, name := ToolLabelTable, "list_intervals_wellness_records";
    assert forall i :: 0 <= i < 7 ==> |t[i].0| != |name|;
    EntryLabelled(t, 7, name);
  }

  lemma EntryLabelled(table: seq<(string, ToolLabels)>, k: nat, name: string)
    requires k < |table| && table[k].0 == name && UserLabelled(Some(table[k].1))
    requires forall i :: 0 <= i < k ==> table[i].0 != name
    ensures UserLabelled(LookupLabels(table, name))
  {
    LookupPrefix(table, k, name);
  }

  /** A lookup that passes over entries with other names lands on the first entry with this name. */
  lemma {:induction false} LookupPrefix(table: seq<(string, ToolLabels)>, k: nat, name: string)
    requires k < |table| && table[k].0 == name
    requires forall i :: 0 <= i < k ==> table[i].0 != name
    ensures LookupLabels(table, name) == Some(table[k].1)
  {
    if k > 0 {
      LookupPrefix(table[1..], k - 1, name);
    }
  }
}
