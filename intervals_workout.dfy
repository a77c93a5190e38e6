/**
 * The Intervals.icu workout text format: a builder that renders a structured
 * plan (sections of steps with durations, distances and target segments) into
 * the line-based text Intervals.icu accepts, and a validator that reads such
 * text back into sections and steps, collecting line-numbered errors.
 *
 * Numbers in segments and distances are given in hundredths (`150` is 1.5),
 * the precision `formatNumber` prints; duration parts are whole numbers.
 * The token regular expressions the validator uses are matchers: the
 * duration, distance and decimal patterns are written out, the other six are
 * parameters.
 */
module IntervalsWorkout {
  import opened Wrappers
  import opened Strings

  // ---------------------------------------------------------------------
  // Numbers
  // ---------------------------------------------------------------------

  function Digit(d: nat): char
    requires d < 10
  {
    ('0' as int + d) as char
  }

  predicate IsDigit(c: char) {
    '0' <= c <= '9'
  }

  /** The end of the run of digits that starts at `i`. */
  function DigitEnd(s: string, i: nat): (r: nat)
    requires i <= |s|
    ensures i <= r <= |s|
    ensures forall j :: i <= j < r ==> IsDigit(s[j])
    ensures r == |s| || !IsDigit(s[r])
    decreases |s| - i
  {
    if i < |s| && IsDigit(s[i]) then DigitEnd(s, i + 1) else i
  }

  /** The decimals `toFixed(2)` prints for `cents` hundredths, trailing zero removed. */
  function Fraction(cents: nat): (r: string)
    requires 0 < cents < 100
    ensures 1 <= |r| <= 2 && forall i :: 0 <= i < |r| ==> '0' <= r[i] <= '9'
    ensures r[|r| - 1] != '0'
    ensures (if |r| == 1 then DigitsValue(r) * 10 else DigitsValue(r)) == cents
  {
    var r := if cents % 10 == 0 then [Digit(cents / 10)] else [Digit(cents / 10), Digit(cents % 10)];
    assert DigitsValue(r[..|r| - 1]) == if |r| == 1 then 0 else cents / 10;
    r
  }

  /**
   * `formatNumber` for a value given in hundredths: integers print plainly,
   * other values with one or two decimals and no trailing zero.
   */
  function FormatNumber(c: int): (r: string)
    ensures r != [] && (IsDigit(r[0]) || r[0] == '-')
    ensures ('.' in r) <==> c % 100 != 0
    ensures c % 100 != 0 ==> r[|r| - 1] != '0' && IsDigit(r[|r| - 1])
  {
    if c % 100 == 0 then IntToString(c / 100)
    else
      var a: nat := if c < 0 then -c else c;
      var sign := if c < 0 then "-" else "";
      var fraction := Fraction(a % 100);
      var r := sign + NatToString(a / 100) + "." + fraction;
      assert r[|r| - 1 - |fraction|] == '.';
      r
  }

  // ---------------------------------------------------------------------
  // Plan input
  // ---------------------------------------------------------------------

  /** A time duration; an absent part is 0. */
  datatype TimeDuration = TimeDuration(hours: nat, minutes: nat, seconds: nat)

  datatype DistanceUnit = Metres | Kilometres | Miles | Yards

  /** A distance; `value` in hundredths. */
  datatype Distance = Distance(value: int, unit: DistanceUnit)

  datatype Modality = PowerModality | HrModality | PaceModality

  datatype PowerUnit = Watts | WattsPerKg

  datatype RampUnit = RampPercent | RampWatts | RampWattsPerKg

  /** A zone or ramp endpoint: `number | string`. */
  datatype Endpoint = Num(n: int) | Word(w: string)

  datatype Segment =
    | Plain(text: string)
    | Percent(percent: int, of: Option<string>)
    | PercentRange(min: int, max: int, of: Option<string>)
    | Zone(zone: Endpoint, modality: Option<Modality>)
    | Power(watts: int, powerUnit: Option<PowerUnit>)
    | PowerRange(min: int, max: int, powerUnit: Option<PowerUnit>)
    | Cadence(rpm: Option<int>, lowRpm: Option<int>, highRpm: Option<int>)
    | Ramp(start: Endpoint, end: Option<Endpoint>, rampUnit: Option<RampUnit>, of: Option<string>)
    | Pace(pace: string)
    | PaceRange(fastPace: string, slowPace: string)
    | TextSegment(text: string)
    | PressLap(lapText: Option<string>)

  datatype Step = Step(
    prompt: Option<string>,
    duration: Option<TimeDuration>,
    distance: Option<Distance>,
    segments: seq<Segment>,
    notes: Option<string>)

  datatype Section = Section(title: string, repeat: Option<int>, steps: seq<Step>)

  // ---------------------------------------------------------------------
  // Builder errors
  // ---------------------------------------------------------------------

  const NoSectionsError := "At least one section is required."
  const EmptyDurationError := "Time duration must include hours, minutes, or seconds."
  const DistanceError := "Distance must be greater than zero."
  const CadenceError := "Cadence segment needs value or min+max."

  function NoStepsError(title: string): string {
    "Section \"" + title + "\" needs at least one step."
  }

  function NoMetricError(title: string): string {
    "Step in \"" + title + "\" needs a duration or distance."
  }

  // ---------------------------------------------------------------------
  // Rendering
  // ---------------------------------------------------------------------

  predicate HasAnyValue(d: TimeDuration) {
    d.hours > 0 || d.minutes > 0 || d.seconds > 0
  }

  /** `renderTimeDuration`: "1h30m", "45m", "1m30", "20s". */
  function RenderTimeDuration(d: TimeDuration): (r: Result<string, string>)
    ensures r.Err? <==> !HasAnyValue(d)
    ensures r.Err? ==> r.error == EmptyDurationError
    ensures r.Ok? ==> r.value != ""
  {
    if !HasAnyValue(d) then Err(EmptyDurationError)
    else
      var hours := if d.hours > 0 then NatToString(d.hours) + "h" else "";
      var minutes := if d.minutes > 0 then NatToString(d.minutes) + "m" else "";
      var seconds :=
        if d.seconds == 0 then ""
        else if d.hours > 0 || d.minutes > 0 then NatToString(d.seconds)
        else NatToString(d.seconds) + "s";
      var joined := hours + minutes + seconds;
      Ok(if joined == "" then "0s" else joined)
  }

  function UnitName(u: DistanceUnit): string {
    match u
    case Metres => "m"
    case Kilometres => "km"
    case Miles => "mi"
    case Yards => "yd"
  }

  /** `renderDistance`: refuses a value that is not positive. */
  function RenderDistance(d: Distance): (r: Result<string, string>)
    ensures r.Err? <==> d.value <= 0
    ensures r.Err? ==> r.error == DistanceError
  {
    if d.value <= 0 then Err(DistanceError) else Ok(FormatNumber(d.value) + UnitName(d.unit))
  }

  /** `renderPercentLabel`: the label upper-cased, "FTP" when absent or empty. */
  function PercentLabel(of: Option<string>): string {
    if of.Some? && of.value != "" then Upper(of.value) else "FTP"
  }

  /** The match of `/^z(\d+)(?:\s*(hr|pace))?$/i`: the zone digits and the modality as written. */
  function ZoneTokenParts(t: string): (r: Option<(string, Option<string>)>)
    ensures r.Some? ==> r.value.0 != [] && forall i :: 0 <= i < |r.value.0| ==> IsDigit(r.value.0[i])
    ensures r.Some? && r.value.1.Some? ==> Lower(r.value.1.value) == "hr" || Lower(r.value.1.value) == "pace"
  {
    if |t| < 2 || LowerChar(t[0]) != 'z' || !IsDigit(t[1]) then None
    else
      var k := DigitEnd(t, 1);
      var modality := TrimStart(t[k..]);
      if modality == [] then (if k == |t| then Some((t[1..k], None)) else None)
      else if Lower(modality) == "hr" || Lower(modality) == "pace" then Some((t[1..k], Some(modality)))
      else None
  }

  /** `normalizeZoneToken`: "Z3", "Z2 HR"; a string that is not a zone token is trimmed and upper-cased. */
  function NormalizeZoneToken(v: string): string {
    match ZoneTokenParts(Trim(v))
    case None => Upper(Trim(v))
    case Some((zone, modality)) =>
      "Z" + zone + (if modality.Some? then " " + Upper(modality.value) else "")
  }

  /** `formatRampLabel` */
  function RampLabel(e: Option<Endpoint>): string {
    match e
    case None => ""
    case Some(Word(w)) => if ZoneTokenParts(Trim(w)).Some? then NormalizeZoneToken(w) else Upper(Trim(w))
    case Some(Num(n)) => FormatNumber(n)
  }

  function ModalityName(m: Modality): string {
    match m
    case PowerModality => "POWER"
    case HrModality => "HR"
    case PaceModality => "PACE"
  }

  function PowerUnitName(u: Option<PowerUnit>): string {
    if u == Some(WattsPerKg) then "w/kg" else "w"
  }

  /** The label of a ramp: its `of`, or " FTP" for a numeric percent ramp. */
  function RampText(start: Endpoint, end: Option<Endpoint>, unit: Option<RampUnit>, of: Option<string>): string {
    var startLabel := RampLabel(Some(start));
    var endLabel := RampLabel(end);
    var range := if endLabel != "" then startLabel + "-" + endLabel else startLabel;
    var named := of.Some? && Trim(of.value) != "";
    if start.Num? && (end.None? || end.value.Num?) then
      var u := unit.GetOr(RampPercent);
      var suffix := match u case RampPercent => "%" case RampWatts => "w" case RampWattsPerKg => "w/kg";
      var tail := if named then " " + PercentLabel(of) else if u == RampPercent then " FTP" else "";
      Trim("ramp " + range + suffix + tail)
    else
      Trim("ramp " + range + (if named then " " + PercentLabel(of) else ""))
  }

  /** `renderSegment`: the text of one target segment ("" is dropped by the caller). */
  function RenderSegment(s: Segment): (r: Result<string, string>)
    ensures r.Err? <==> s.Cadence? && s.rpm.None? && (s.lowRpm.None? || s.highRpm.None?)
    ensures r.Err? ==> r.error == CadenceError
  {
    match s
    case Plain(text) => Ok(Trim(text))
    case Percent(p, of) => Ok(Trim(FormatNumber(p) + "% " + PercentLabel(of)))
    case PercentRange(lo, hi, of) => Ok(Trim(FormatNumber(lo) + "-" + FormatNumber(hi) + "% " + PercentLabel(of)))
    case Zone(zone, modality) =>
      // `String(zone)` prints a number given in hundredths as `formatNumber` does
      var z := match zone case Num(n) => FormatNumber(n) case Word(w) => w;
      Ok(Trim("Z" + z + (if modality.Some? then " " + ModalityName(modality.value) else "")))
    case Power(w, unit) => Ok(FormatNumber(w) + PowerUnitName(unit))
    case PowerRange(lo, hi, unit) => Ok(FormatNumber(lo) + "-" + FormatNumber(hi) + PowerUnitName(unit))
    case Cadence(rpm, lo, hi) =>
      if rpm.Some? then Ok(FormatNumber(rpm.value) + "rpm")
      else if lo.Some? && hi.Some? then Ok(FormatNumber(lo.value) + "-" + FormatNumber(hi.value) + "rpm")
      else Err(CadenceError)
    case Ramp(start, end, unit, of) => Ok(RampText(start, end, unit, of))
    case Pace(p) => Ok(p)
    case PaceRange(fast, slow) => Ok(fast + "-" + slow)
    case TextSegment(text) => Ok(Trim(text))
    case PressLap(text) => Ok(if text.Some? then Trim(text.value) else "Press lap to continue")
  }

  // ---------------------------------------------------------------------
  // Builder
  // ---------------------------------------------------------------------

  /**
   * The rendered segments of a step in order, empty renderings dropped; the
   * first segment that cannot be rendered decides the error.
   */
  function SegmentTokens(segments: seq<Segment>): Result<seq<string>, string> {
    if segments == [] then Ok([])
    else
      match SegmentTokens(segments[..|segments| - 1])
      case Err(e) => Err(e)
      case Ok(tokens) =>
        match RenderSegment(segments[|segments| - 1])
        case Err(e) => Err(e)
        case Ok(t) => Ok(if t == "" then tokens else tokens + [t])
  }

  /** Once a prefix of the segments fails, every longer prefix fails the same way. */
  lemma {:induction false} SegmentTokensKeepError(segments: seq<Segment>, i: nat)
    requires i <= |segments| && SegmentTokens(segments[..i]).Err?
    ensures SegmentTokens(segments) == SegmentTokens(segments[..i])
    decreases |segments| - i
  {
    if i < |segments| {
      assert segments[..i + 1][..i] == segments[..i];
      SegmentTokensKeepError(segments, i + 1);
    } else {
      assert segments[..i] == segments;
    }
  }

  /** The token loop of `buildIntervalsWorkoutText`: render each segment, skip empty ones. */
  method CollectSegmentTokens(segments: seq<Segment>) returns (r: Result<seq<string>, string>)
    ensures r == SegmentTokens(segments)
  {
    var tokens: seq<string> := [];
    var i := 0;
    while i < |segments|
      invariant 0 <= i <= |segments|
      invariant SegmentTokens(segments[..i]) == Ok(tokens)
    {
      assert segments[..i + 1][..i] == segments[..i];
      var rendered := RenderSegment(segments[i]);
      if rendered.Err? {
        SegmentTokensKeepError(segments, i + 1);
        return Err(rendered.error);
      }
      if rendered.value != "" {
        tokens := tokens + [rendered.value];
      }
      i := i + 1;
    }
    assert segments[..i] == segments;
    return Ok(tokens);
  }

  /** `value?.trim()` kept only when non-empty (`filter(Boolean)`). */
  function TrimmedText(value: Option<string>): seq<string> {
    if value.Some? && Trim(value.value) != "" then [Trim(value.value)] else []
  }

  /** The text before the metrics: prompt and notes, trimmed and joined by a space. */
  function TextPrefix(prompt: Option<string>, notes: Option<string>): string {
    Trim(Join(TrimmedText(prompt) + TrimmedText(notes), " "))
  }

  /** The step line without its "- ": prefix and metrics joined, whitespace collapsed and trimmed. */
  function FullLine(prefix: string, metrics: string): string {
    var chunks := (if prefix != "" then [prefix] else []) + (if metrics != "" then [metrics] else []);
    Trim(CollapseWhitespace(Join(chunks, " ")))
  }

  /** The duration and distance tokens of a step, in that order. */
  function MetricTokens(step: Step): Result<seq<string>, string> {
    var duration := if step.duration.Some? then RenderTimeDuration(step.duration.value) else Ok("");
    var distance := if step.distance.Some? then RenderDistance(step.distance.value) else Ok("");
    if duration.Err? then Err(duration.error)
    else if distance.Err? then Err(distance.error)
    else
      Ok((if step.duration.Some? then [duration.value] else [])
        + (if step.distance.Some? then [distance.value] else []))
  }

  /** One step line, "- " + prompt/notes + metrics. */
  function StepLine(title: string, step: Step): Result<string, string> {
    if step.duration.None? && step.distance.None? then Err(NoMetricError(title))
    else
      match MetricTokens(step)
      case Err(e) => Err(e)
      case Ok(metrics) =>
        match SegmentTokens(step.segments)
        case Err(e) => Err(e)
        case Ok(segments) =>
          var tokens := metrics + segments;
          Ok("- " + FullLine(TextPrefix(step.prompt, step.notes), Join(tokens, " ")))
  }

  function StepLines(title: string, steps: seq<Step>): (r: Result<seq<string>, string>)
    ensures r.Ok? ==> |r.value| == |steps|
  {
    if steps == [] then Ok([])
    else
      match StepLine(title, steps[0])
      case Err(e) => Err(e)
      case Ok(line) =>
        match StepLines(title, steps[1..])
        case Err(e) => Err(e)
        case Ok(lines) => Ok([line] + lines)
  }

  /** A truthy repeat count: present and not zero. */
  predicate Repeats(section: Section) {
    section.repeat.Some? && section.repeat.value != 0
  }

  /** The heading line: "title Nx" when the section repeats. */
  function Heading(section: Section): string {
    if Repeats(section) then section.title + " " + IntToString(section.repeat.value) + "x"
    else section.title
  }

  /** A section's text: the heading and its step lines, one per line. */
  function SectionText(section: Section): Result<string, string> {
    if section.steps == [] then Err(NoStepsError(section.title))
    else
      match StepLines(section.title, section.steps)
      case Err(e) => Err(e)
      case Ok(lines) => Ok(Join([Heading(section)] + lines, "\n"))
  }

  function SectionTexts(sections: seq<Section>): Result<seq<string>, string> {
    if sections == [] then Ok([])
    else
      match SectionText(sections[0])
      case Err(e) => Err(e)
      case Ok(text) =>
        match SectionTexts(sections[1..])
        case Err(e) => Err(e)
        case Ok(texts) => Ok([text] + texts)
  }

  /** `buildIntervalsWorkoutText`: sections separated by a blank line. */
  function BuildWorkoutText(sections: seq<Section>): (r: Result<string, string>)
    ensures sections == [] ==> r == Err(NoSectionsError)
    ensures r.Ok? <==> sections != [] && SectionTexts(sections).Ok?
  {
    if sections == [] then Err(NoSectionsError)
    else
      match SectionTexts(sections)
      case Err(e) => Err(e)
      case Ok(texts) => Ok(Join(texts, "\n\n"))
  }

  // ---------------------------------------------------------------------
  // Token matchers
  // ---------------------------------------------------------------------

  /**
   * A global regular expression seen from one start position: the end of
   * its match at `i`, if it matches there. None of the source patterns
   * matches the empty string, so a match ends after its start.
   */
  type Matcher = (string, nat) -> Option<nat>

  predicate MatchesAt(m: Matcher, s: string, q: nat) {
    var e := m(s, q);
    e.Some? && q < e.value <= |s|
  }

  /** `pattern.exec(text)` with `lastIndex == p`: the first match starting at or after `p`. */
  function NextMatch(m: Matcher, s: string, p: nat): (r: Option<(nat, nat)>)
    requires p <= |s|
    ensures r.Some? ==>
      p <= r.value.0 < r.value.1 <= |s| && MatchesAt(m, s, r.value.0) && m(s, r.value.0) == Some(r.value.1)
    ensures r.Some? ==> forall q :: p <= q < r.value.0 ==> !MatchesAt(m, s, q)
    ensures r.None? ==> forall q :: p <= q <= |s| ==> !MatchesAt(m, s, q)
    decreases |s| - p
  {
    if MatchesAt(m, s, p) then Some((p, m(s, p).value))
    else if p == |s| then None
    else NextMatch(m, s, p + 1)
  }

  /** The matched texts from `p` on, each search resuming where the last match ended. */
  function AllMatches(m: Matcher, s: string, p: nat): seq<string>
    requires p <= |s|
    decreases |s| - p
  {
    match NextMatch(m, s, p)
    case None => []
    case Some((q, e)) => [s[q..e]] + AllMatches(m, s, e)
  }

  /** `findMatches`: exec until no match is left, collecting each match. */
  method FindMatches(m: Matcher, s: string) returns (matches: seq<string>)
    ensures matches == AllMatches(m, s, 0)
  {
    matches := [];
    var lastIndex := 0;
    while true
      invariant lastIndex <= |s|
      invariant matches + AllMatches(m, s, lastIndex) == AllMatches(m, s, 0)
      decreases |s| - lastIndex
    {
      var next := NextMatch(m, s, lastIndex);
      if next.None? {
        return;
      }
      matches := matches + [s[next.value.0..next.value.1]];
      lastIndex := next.value.1;
    }
  }

  /** `findFirstMatchIndex`: where the first match starts, or -1. */
  function FirstMatchIndex(m: Matcher, s: string): (r: int)
    ensures -1 <= r < |s|
    ensures r == -1 <==> AllMatches(m, s, 0) == []
    ensures r >= 0 ==> MatchesAt(m, s, r) && forall q :: 0 <= q < r ==> !MatchesAt(m, s, q)
  {
    match NextMatch(m, s, 0)
    case None => -1
    case Some((q, _)) => q
  }

  /** A character of `\w`, which decides `\b`. */
  predicate IsWordChar(c: char) {
    IsDigit(c) || ('a' <= c <= 'z') || ('A' <= c <= 'Z') || c == '_'
  }

  /** `\b` at position `i`: a word character on exactly one side. */
  predicate Boundary(s: string, i: nat)
    requires i <= |s|
  {
    (i > 0 && IsWordChar(s[i - 1])) != (i < |s| && IsWordChar(s[i]))
  }

  /** The unit `u` follows position `k`, ignoring case, and `\b` follows the unit. */
  predicate UnitAt(s: string, k: nat, u: string) {
    u != [] && k + |u| <= |s| && Lower(s[k..k + |u|]) == u && Boundary(s, k + |u|)
  }

  /** The end of the first unit of `units`, in their order, that matches at `k`. */
  function UnitEnd(s: string, k: nat, units: seq<string>): (r: Option<nat>)
    ensures r.Some? ==> k < r.value <= |s| && Boundary(s, r.value)
  {
    if units == [] then None
    else if UnitAt(s, k, units[0]) then Some(k + |units[0]|)
    else UnitEnd(s, k, units[1..])
  }

  /** What `UnitEnd` matched is one of the units, read without case. */
  lemma {:induction false} UnitEndIsUnit(s: string, k: nat, units: seq<string>)
    ensures var r := UnitEnd(s, k, units);
      r.Some? ==> Lower(s[k..r.value]) in units
  {
    if units != [] && !UnitAt(s, k, units[0]) {
      UnitEndIsUnit(s, k, units[1..]);
    }
  }

  const DurationUnits := ["h", "hr", "hrs", "hour", "hours", "m", "min", "mins", "minute", "minutes",
                          "s", "sec", "secs", "second", "seconds"]
  const DistanceUnits := ["km", "mi", "m", "meter", "meters", "yd", "yds"]
  const DecimalUnits := DurationUnits + DistanceUnits

  /** `\b\d+` at `i`: where the digits end. */
  function NumberAt(s: string, i: nat): (r: Option<nat>)
    ensures r.Some? ==> i < r.value <= |s| && DigitEnd(s, i) == r.value
  {
    if i < |s| && IsDigit(s[i]) && Boundary(s, i) then Some(DigitEnd(s, i)) else None
  }

  /** `\b\d+m\d+\b` continued at the end `k` of the first digits. */
  function MinutesSecondsEnd(s: string, k: nat): Option<nat>
    requires k <= |s|
  {
    if k + 1 < |s| && LowerChar(s[k]) == 'm' && IsDigit(s[k + 1]) && Boundary(s, DigitEnd(s, k + 1))
    then Some(DigitEnd(s, k + 1))
    else None
  }

  /** `DURATION_PATTERN` as written: `\b\d+(?:h|hr|…|seconds)\b|\b\d+m\d+\b`, ignoring case. */
  function DurationAsWritten(s: string, i: nat): (r: Option<nat>)
    ensures r.Some? ==> i < r.value <= |s| && IsDigit(s[i])
  {
    match NumberAt(s, i)
    case None => None
    case Some(k) =>
      var unit := UnitEnd(s, k, DurationUnits);
      if unit.Some? then unit else MinutesSecondsEnd(s, k)
  }

  /** `\b\d+h\d+m?\d*\b` continued at the end `k` of the first digits: hours with minutes or seconds. */
  function HoursEnd(s: string, k: nat): Option<nat>
    requires k <= |s|
  {
    if k + 1 < |s| && LowerChar(s[k]) == 'h' && IsDigit(s[k + 1]) then
      var m := DigitEnd(s, k + 1);
      var e := if m < |s| && LowerChar(s[m]) == 'm' then DigitEnd(s, m + 1) else m;
      if Boundary(s, e) then Some(e) else None
    else None
  }

  /**
   * The duration pattern with the alternative for the durations the builder
   * writes with hours and a further part ("1h30m", "1h30", "1h30m15").
   */
  function Duration(s: string, i: nat): (r: Option<nat>)
    ensures r.Some? ==> i < r.value <= |s| && IsDigit(s[i])
    ensures DurationAsWritten(s, i).Some? ==> r == DurationAsWritten(s, i)
  {
    match NumberAt(s, i)
    case None => None
    case Some(k) =>
      var unit := UnitEnd(s, k, DurationUnits);
      if unit.Some? then unit
      else if MinutesSecondsEnd(s, k).Some? then MinutesSecondsEnd(s, k)
      else HoursEnd(s, k)
  }

  /** `DISTANCE_PATTERN`: `\b\d+(?:km|mi|m|meter|meters|yd|yds)\b`, ignoring case. */
  function DistanceAt(s: string, i: nat): (r: Option<nat>)
    ensures r.Some? ==> i < r.value <= |s| && IsDigit(s[i])
  {
    match NumberAt(s, i)
    case None => None
    case Some(k) => UnitEnd(s, k, DistanceUnits)
  }

  /** `\b\d+\.\d+`, then one of `units` ignoring case, then `\b`. */
  function DecimalEnd(s: string, i: nat, units: seq<string>): (r: Option<nat>)
    ensures r.Some? ==> i < |s| && IsDigit(s[i]) && Boundary(s, i)
    ensures r.Some? && i <= |s| ==>
      var k := DigitEnd(s, i);
      && k + 1 < |s| && s[k] == '.' && IsDigit(s[k + 1])
      && DigitEnd(s, k + 1) < r.value <= |s| && Boundary(s, r.value)
      && Lower(s[DigitEnd(s, k + 1)..r.value]) in units
  {
    match NumberAt(s, i)
    case None => None
    case Some(k) =>
      if k + 1 < |s| && s[k] == '.' && IsDigit(s[k + 1]) then
        UnitEndIsUnit(s, DigitEnd(s, k + 1), units);
        UnitEnd(s, DigitEnd(s, k + 1), units)
      else None
  }

  /** `DECIMAL_DURATION_DISTANCE_PATTERN`: `\b\d+\.\d+` and a duration or distance unit, then `\b`. */
  function DecimalAt(s: string, i: nat): (r: Option<nat>)
    ensures r.Some? ==> i < |s| && IsDigit(s[i]) && Boundary(s, i)
    ensures r.Some? && i <= |s| ==>
      var k := DigitEnd(s, i);
      && k + 1 < |s| && s[k] == '.' && IsDigit(s[k + 1])
      && DigitEnd(s, k + 1) < r.value <= |s| && Boundary(s, r.value)
      && Lower(s[DigitEnd(s, k + 1)..r.value]) in DecimalUnits
  {
    DecimalEnd(s, i, DecimalUnits)
  }

  /**
   * The patterns the validator uses: the duration pattern (`Duration`, or
   * `DurationAsWritten` for the expression as the source writes it) and the
   * six patterns written out only as matchers.
   */
  datatype Patterns = Patterns(
    duration: Matcher,
    percent: Matcher,
    zone: Matcher,
    power: Matcher,
    cadence: Matcher,
    ramp: Matcher,
    pace: Matcher)

  // ---------------------------------------------------------------------
  // Validator
  // ---------------------------------------------------------------------

  datatype ParsedStep = ParsedStep(
    raw: string,
    prompt: Option<string>,
    durations: seq<string>,
    distances: seq<string>,
    percents: seq<string>,
    zones: seq<string>,
    power: seq<string>,
    cadence: seq<string>,
    ramps: seq<string>,
    paces: seq<string>,
    notes: Option<string>,
    errors: seq<string>)

  datatype ParsedSection = ParsedSection(title: string, repeat: Option<nat>, steps: seq<ParsedStep>)

  datatype ValidationResult = ValidationResult(valid: bool, errors: seq<string>, sections: Option<seq<ParsedSection>>)

  const EmptyTextError := "Workout text is empty."
  const NoStepLinesError := "Workout must include at least one step (lines starting with '- ')."

  function LinePrefix(n: nat): string {
    "Line " + NatToString(n) + ": "
  }

  function EmptyStepError(n: nat): string {
    LinePrefix(n) + "Empty step."
  }

  function HashError(n: nat, note: string): string {
    LinePrefix(n) + "Replace '#" + (if note != "" then " " + note else "")
    + "' comments with inline text before the duration (e.g., '- Seated smooth 3m ...')."
  }

  function DecimalError(n: nat, found: string): string {
    LinePrefix(n) + "Use whole-number durations/distances (e.g., replace " + found + " with 5h30m or 1500m)."
  }

  function MissingMetricError(n: nat): string {
    LinePrefix(n) + "Step is missing a duration or distance."
  }

  /** A JavaScript line terminator, which `.` does not match. */
  predicate IsLineTerminator(c: char) {
    c == '\n' || c == '\r' || c == '\U{2028}' || c == '\U{2029}'
  }

  predicate HasLineTerminator(s: string) {
    s != [] && (IsLineTerminator(s[0]) || HasLineTerminator(s[1..]))
  }

  /**
   * The repeat suffix of a heading, read from the right: an `x` (any case),
   * optional whitespace, digits, and at least one whitespace character. The
   * result is the text before the suffix and the digits.
   */
  function RepeatSuffix(line: string): (r: Option<(string, string)>)
    ensures r.Some? ==> r.value.1 != [] && forall i :: 0 <= i < |r.value.1| ==> IsDigit(r.value.1[i])
  {
    if line == [] || LowerChar(line[|line| - 1]) != 'x' then None
    else
      var digitsEnd := |TrimEnd(line[..|line| - 1])|;
      var digitsStart := DigitStart(line, digitsEnd);
      var titleEnd := |TrimEnd(line[..digitsStart])|;
      if digitsStart == digitsEnd || titleEnd == digitsStart then None
      else Some((line[..titleEnd], line[digitsStart..digitsEnd]))
  }

  /** The start of the run of digits that ends at `j`. */
  function DigitStart(s: string, j: nat): (r: nat)
    requires j <= |s|
    ensures r <= j
    ensures forall i :: r <= i < j ==> IsDigit(s[i])
    ensures r == 0 || !IsDigit(s[r - 1])
  {
    if j > 0 && IsDigit(s[j - 1]) then DigitStart(s, j - 1) else j
  }

  /**
   * `parseRepeatSuffix`: `/^(.*?)(?:\s+(\d+)\s*x)?$/i`. The lazy title stops
   * at the first place the suffix can start; when the title would have to
   * span a line terminator the expression does not match at all.
   */
  function ParseRepeatSuffix(line: string): (r: (string, Option<nat>))
    ensures r.1.Some? ==> r.0 != []
    ensures RepeatSuffix(line).None? ==> r.1.None?
  {
    match RepeatSuffix(line)
    case Some((title, digits)) =>
      if HasLineTerminator(title) then (Trim(line), None)
      else (if Trim(title) == "" then "Section" else Trim(title), Some(DigitsValue(digits)))
    case None =>
      if HasLineTerminator(line) then (Trim(line), None)
      else (if Trim(line) == "" then "Section" else Trim(line), None)
  }

  /** `line.replace(/^-\s+/, "")` */
  function StripStepPrefix(line: string): string {
    if |line| >= 2 && line[0] == '-' && IsWhitespace(line[1]) then TrimStart(line[1..]) else line
  }

  /** `[a, b].filter(v => v >= 0).sort()[0] ?? -1` */
  function FirstMetricIndex(a: int, b: int): (r: int)
    ensures r == -1 <==> a < 0 && b < 0
  {
    if a >= 0 && (b < 0 || a <= b) then a else if b >= 0 then b else -1
  }

  /** The text before a `#` comment, trimmed, and the comment, trimmed. */
  function SplitComment(withoutPrefix: string): (r: (string, Option<string>))
    ensures r.1.None? <==> '#' !in withoutPrefix
  {
    var hash := IndexOf(withoutPrefix, '#');
    if hash < 0 then (withoutPrefix, None)
    else (Trim(withoutPrefix[..hash]), Some(Trim(withoutPrefix[hash + 1..])))
  }

  /** The text before the first duration or distance, when it does not start the content. */
  function PromptOf(content: string, pats: Patterns): Option<string> {
    var first := FirstMetricIndex(FirstMatchIndex(pats.duration, content), FirstMatchIndex(DistanceAt, content));
    if first > 0 then Some(Trim(content[..first])) else None
  }

  /** The errors of a non-empty step: a comment, a decimal metric, no metric at all. */
  function StepErrors(n: nat, withoutPrefix: string, content: string, note: Option<string>, pats: Patterns): seq<string> {
    var decimals := AllMatches(DecimalAt, withoutPrefix, 0);
    (if note.Some? then [HashError(n, note.value)] else [])
    + (if decimals != [] then [DecimalError(n, decimals[0])] else [])
    + (if AllMatches(pats.duration, content, 0) == [] && AllMatches(DistanceAt, content, 0) == []
       then [MissingMetricError(n)] else [])
  }

  /** `parseStepLine` for line number `n`. */
  function ParseStepLine(line: string, n: nat, pats: Patterns): (r: ParsedStep)
    ensures r.raw == line
  {
    var withoutPrefix := Trim(StripStepPrefix(line));
    if withoutPrefix == "" then
      ParsedStep(line, None, [], [], [], [], [], [], [], [], None, [EmptyStepError(n)])
    else
      var (content, note) := SplitComment(withoutPrefix);
      ParsedStep(
        line,
        PromptOf(content, pats),
        AllMatches(pats.duration, content, 0),
        AllMatches(DistanceAt, content, 0),
        AllMatches(pats.percent, content, 0),
        AllMatches(pats.zone, content, 0),
        AllMatches(pats.power, content, 0),
        AllMatches(pats.cadence, content, 0),
        AllMatches(pats.ramp, content, 0),
        AllMatches(pats.pace, content, 0),
        if note.Some? && note.value != "" then note else None,
        StepErrors(n, withoutPrefix, content, note, pats))
  }

  /** What the validator has read so far; the current section is the last one. */
  datatype Reading = Reading(sections: seq<ParsedSection>, errors: seq<string>)

  /**
   * `current.steps.push(step)`: the sections with `step` appended to the
   * last one; a step before any heading opens a section titled "Workout".
   */
  function AddStep(sections: seq<ParsedSection>, step: ParsedStep): (r: seq<ParsedSection>)
    ensures sections == [] ==> r == [ParsedSection("Workout", None, [step])]
    ensures sections != [] ==> |r| == |sections| && r[..|r| - 1] == sections[..|sections| - 1]
    ensures sections != [] ==> var last := sections[|sections| - 1];
      r[|r| - 1].title == last.title && r[|r| - 1].repeat == last.repeat && r[|r| - 1].steps == last.steps + [step]
  {
    if sections == [] then [ParsedSection("Workout", None, [step])]
    else
      var current := sections[|sections| - 1];
      sections[..|sections| - 1] + [current.(steps := current.steps + [step])]
  }

  /** A step-line parser: `parseStepLine` with the validator's patterns fixed. */
  type StepParser = (string, nat) -> ParsedStep

  function StepParserOf(pats: Patterns): StepParser {
    (line: string, n: nat) => ParseStepLine(line, n, pats)
  }

  /** One line of `validateIntervalsWorkoutText`, at zero-based index `idx`. */
  function ReadLine(st: Reading, rawLine: string, idx: nat, parse: StepParser): Reading {
    var line := Trim(rawLine);
    if line == "" then st
    else if line[0] == '-' then
      var step := parse(line, idx + 1);
      Reading(AddStep(st.sections, step), st.errors + step.errors)
    else
      var (title, repeat) := ParseRepeatSuffix(line);
      Reading(st.sections + [ParsedSection(title, repeat, [])], st.errors)
  }

  /** The lines `lines[..k]` read in order. */
  function ReadLines(lines: seq<string>, k: nat, parse: StepParser): Reading
    requires k <= |lines|
  {
    if k == 0 then Reading([], [])
    else ReadLine(ReadLines(lines, k - 1, parse), lines[k - 1], k - 1, parse)
  }

  predicate HasSteps(sections: seq<ParsedSection>) {
    exists i :: 0 <= i < |sections| && sections[i].steps != []
  }

  /** The closing checks and the verdict after all lines are read. */
  function Verdict(st: Reading): (r: ValidationResult)
    ensures r.valid <==> r.errors == []
    ensures r.valid <==> st.errors == [] && st.sections != [] && HasSteps(st.sections)
    ensures r.sections.Some? <==> r.valid
    ensures r.valid ==> r.sections == Some(st.sections)
  {
    var errors :=
      if st.sections == [] then st.errors + [EmptyTextError]
      else if !HasSteps(st.sections) then st.errors + [NoStepLinesError]
      else st.errors;
    if errors != [] then ValidationResult(false, errors, None)
    else ValidationResult(true, [], Some(st.sections))
  }

  /**
   * `validateIntervalsWorkoutText`. The text is split at "\n"; a "\r"
   * before it is whitespace that trimming removes.
   */
  function Validate(text: string, pats: Patterns): (r: ValidationResult)
    ensures r.valid <==> r.errors == []
    ensures r.sections.Some? <==> r.valid
  {
    var lines := Split(text, '\n');
    Verdict(ReadLines(lines, |lines|, StepParserOf(pats)))
  }

  lemma ValidateReadsAllLines(text: string, pats: Patterns, lines: seq<string>, st: Reading)
    requires lines == Split(text, '\n')
    requires st == ReadLines(lines, |lines|, StepParserOf(pats))
    ensures Validate(text, pats) == Verdict(st)
  {
  }

  /** The `forEach` callback: one line, the current section updated in place. */
  method ReadLineInPlace(sections: seq<ParsedSection>, errors: seq<string>, rawLine: string, idx: nat, parse: StepParser)
    returns (sections': seq<ParsedSection>, errors': seq<string>)
    ensures Reading(sections', errors') == ReadLine(Reading(sections, errors), rawLine, idx, parse)
  {
    sections', errors' := sections, errors;
    var line := Trim(rawLine);
    if line == "" {
      return;
    }
    if line[0] == '-' {
      if sections' == [] {
        sections' := [ParsedSection("Workout", None, [])];
      }
      var step := parse(line, idx + 1);
      var current := sections'[|sections'| - 1];
      sections' := sections'[..|sections'| - 1] + [current.(steps := current.steps + [step])];
      assert sections' == AddStep(sections, step) by {
        if sections == [] {
          assert current.steps + [step] == [step];
        }
      }
      errors' := errors' + step.errors;
      return;
    }
    var (title, repeat) := ParseRepeatSuffix(line);
    sections' := sections' + [ParsedSection(title, repeat, [])];
  }

  /** The `forEach` over the lines of the text. */
  method ReadAllLines(lines: seq<string>, parse: StepParser) returns (sections: seq<ParsedSection>, errors: seq<string>)
    ensures Reading(sections, errors) == ReadLines(lines, |lines|, parse)
  {
    sections, errors := [], [];
    var idx := 0;
    while idx < |lines|
      invariant idx <= |lines|
      invariant ReadLines(lines, idx, parse) == Reading(sections, errors)
    {
      sections, errors := ReadLineInPlace(sections, errors, lines[idx], idx, parse);
      idx := idx + 1;
    }
  }

  /** `validateIntervalsWorkoutText`: the lines read in order, then the closing checks. */
  method ValidateWorkoutText(text: string, pats: Patterns) returns (r: ValidationResult)
    ensures r == Validate(text, pats)
  {
    var lines := Split(text, '\n');
    var sections, errors := ReadAllLines(lines, StepParserOf(pats));
    ValidateReadsAllLines(text, pats, lines, Reading(sections, errors));
    if sections == [] {
      errors := errors + [EmptyTextError];
    } else if !HasSteps(sections) {
      errors := errors + [NoStepLinesError];
    }
    if errors != [] {
      return ValidationResult(false, errors, None);
    }
    return ValidationResult(true, [], Some(sections));
  }
}
