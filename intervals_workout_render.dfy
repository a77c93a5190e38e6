/**
 * What the workout builder's renderers promise: `formatNumber` and
 * `renderTimeDuration` print text from which the value can be read back,
 * `renderDistance` refuses exactly the distances that are not positive,
 * ramp and zone labels take their normal form, and the builder refuses a
 * plan exactly when a section or a step is missing what it needs.
 */
module IntervalsWorkoutRender {
  import opened Wrappers
  import opened Strings
  import opened IntervalsWorkout
  import opened IntervalsWorkoutRoundTrip

  // ---------------------------------------------------------------------
  // formatNumber
  // ---------------------------------------------------------------------

  /** The value in hundredths of unsigned text "digits" or "digits.d" or "digits.dd". */
  function ReadUnsigned(s: string): (r: Option<nat>)
    ensures r.Some? ==> s != [] && IsDigit(s[0])
  {
    var k := IndexOf(s, '.');
    if k < 0 then (if Digits(s) then Some(DigitsValue(s) * 100) else None)
    else
      var whole, fraction := s[..k], s[k + 1..];
      if Digits(whole) && Digits(fraction) && |fraction| <= 2 then
        Some(DigitsValue(whole) * 100 + (if |fraction| == 1 then DigitsValue(fraction) * 10 else DigitsValue(fraction)))
      else None
  }

  /** A number in hundredths read back from its decimal text, with an optional leading "-". */
  function ReadNumber(s: string): Option<int> {
    if s != [] && s[0] == '-' then
      match ReadUnsigned(s[1..])
      case None => None
      case Some(v) => Some(-(v as int))
    else ReadUnsigned(s)
  }

  lemma DigitsOf(n: nat)
    ensures Digits(NatToString(n)) && IndexOf(NatToString(n), '.') < 0
  {
  }

  /** "whole.fraction": the '.' is the first one. */
  lemma PointAfter(w: string, f: string)
    requires Digits(w) && Digits(f)
    ensures IndexOf(w + "." + f, '.') == |w|
    ensures (w + "." + f)[..|w|] == w && (w + "." + f)[|w| + 1..] == f
  {
    var s := w + "." + f;
    assert s[|w|] == '.';
    assert forall i :: 0 <= i < |w| ==> s[i] == w[i];
  }

  lemma WholeRead(q: nat)
    ensures ReadUnsigned(NatToString(q)) == Some(q * 100)
  {
    DigitsOf(q);
    NatToStringValue(q);
  }

  lemma FractionRead(q: nat, fraction: string, v: nat)
    requires Digits(fraction) && |fraction| <= 2
    requires v == if |fraction| == 1 then DigitsValue(fraction) * 10 else DigitsValue(fraction)
    ensures ReadUnsigned(NatToString(q) + "." + fraction) == Some(q * 100 + v)
  {
    DigitsOf(q);
    NatToStringValue(q);
    PointAfter(NatToString(q), fraction);
  }

  lemma Hundreds(a: nat)
    ensures a == a / 100 * 100 + a % 100
  {
  }

  lemma SignedRead(u: string)
    requires u != [] && IsDigit(u[0])
    ensures ReadNumber(u) == ReadUnsigned(u)
    ensures ReadNumber("-" + u) == if ReadUnsigned(u).Some? then Some(-(ReadUnsigned(u).value as int)) else None
  {
    assert ("-" + u)[1..] == u;
  }

  lemma WholeNumberRoundTrip(c: int)
    requires c % 100 == 0
    ensures ReadNumber(FormatNumber(c)) == Some(c)
  {
    var q: nat := if c < 0 then -(c / 100) else c / 100;
    assert c == c / 100 * 100;
    assert q * 100 == if c < 0 then -c else c;
    WholeRead(q);
    DigitsOf(q);
    SignedRead(NatToString(q));
    if c < 0 {
      assert FormatNumber(c) == "-" + NatToString(q);
    } else {
      assert FormatNumber(c) == NatToString(q);
    }
  }

  /** The unsigned text of a value with decimals reads back as the value. */
  lemma UnsignedFraction(a: nat)
    requires a % 100 != 0
    ensures var u := NatToString(a / 100) + "." + Fraction(a % 100);
      IsDigit(u[0]) && ReadUnsigned(u) == Some(a)
  {
    Hundreds(a);
    var fraction := Fraction(a % 100);
    FractionRead(a / 100, fraction, a % 100);
    DigitsOf(a / 100);
    assert (NatToString(a / 100) + "." + fraction)[0] == NatToString(a / 100)[0];
  }

  lemma FractionFormat(c: int)
    requires c % 100 != 0
    ensures var a: nat := if c < 0 then -c else c;
      FormatNumber(c) == (if c < 0 then "-" else "") + (NatToString(a / 100) + "." + Fraction(a % 100))
  {
  }

  lemma FractionNumberRoundTrip(c: int)
    requires c % 100 != 0
    ensures ReadNumber(FormatNumber(c)) == Some(c)
  {
    var a: nat := if c < 0 then -c else c;
    var u := NatToString(a / 100) + "." + Fraction(a % 100);
    assert ReadNumber((if c < 0 then "-" else "") + u) == Some(c) by {
      UnsignedFraction(a);
      SignedValue(c, u, a);
    }
    FractionFormat(c);
  }

  /** A sign in front of unsigned text that reads as |c| gives text that reads as c. */
  lemma SignedValue(c: int, u: string, a: nat)
    requires a == (if c < 0 then -c else c) && u != [] && IsDigit(u[0]) && ReadUnsigned(u) == Some(a)
    ensures ReadNumber((if c < 0 then "-" else "") + u) == Some(c)
  {
    SignedRead(u);
    if c >= 0 {
      assert "" + u == u;
    }
  }

  /** `formatNumber` loses nothing of a value given in hundredths: the text reads back as the value. */
  lemma FormatNumberRoundTrip(c: int)
    ensures ReadNumber(FormatNumber(c)) == Some(c)
  {
    if c % 100 == 0 {
      WholeNumberRoundTrip(c);
    } else {
      FractionNumberRoundTrip(c);
    }
  }

  /** Two values in hundredths print the same only when they are equal. */
  lemma FormatNumberInjective(a: int, b: int)
    requires FormatNumber(a) == FormatNumber(b)
    ensures a == b
  {
    FormatNumberRoundTrip(a);
    FormatNumberRoundTrip(b);
  }

  // ---------------------------------------------------------------------
  // renderTimeDuration
  // ---------------------------------------------------------------------

  /**
   * A duration read back from the text `renderTimeDuration` writes: runs of
   * digits, each followed by "h", "m" or "s"; a last run without a unit is
   * seconds.
   */
  function ReadTimeDuration(t: string): Option<TimeDuration>
    decreases |t|
  {
    if t == [] then Some(TimeDuration(0, 0, 0))
    else
      var k := DigitEnd(t, 0);
      if k == 0 then None
      else
        var n := DigitsValue(t[..k]);
        if k == |t| then Some(TimeDuration(0, 0, n))
        else
          match ReadTimeDuration(t[k + 1..])
          case None => None
          case Some(rest) =>
            if t[k] == 'h' then Some(rest.(hours := n))
            else if t[k] == 'm' then Some(rest.(minutes := n))
            else if t[k] == 's' then Some(rest.(seconds := n))
            else None
  }

  /** A run of digits with its unit letter, then the rest. */
  lemma ReadPart(n: nat, u: char, rest: string)
    requires u == 'h' || u == 'm' || u == 's'
    ensures ReadTimeDuration(NatToString(n) + [u] + rest) ==
      match ReadTimeDuration(rest)
      case None => None
      case Some(r) => Some(if u == 'h' then r.(hours := n) else if u == 'm' then r.(minutes := n) else r.(seconds := n))
  {
    var d := NatToString(n);
    var t := d + [u] + rest;
    DigitsOf(n);
    DigitsThen(t, 0, d);
    assert t[..|d|] == d;
    assert t[|d|] == u;
    assert t[|d| + 1..] == rest;
    NatToStringValue(n);
  }

  /** A last run of digits without a unit is seconds. */
  lemma ReadBareSeconds(n: nat)
    ensures ReadTimeDuration(NatToString(n)) == Some(TimeDuration(0, 0, n))
  {
    var d := NatToString(n);
    DigitsOf(n);
    DigitsThen(d, 0, d);
    assert d[..|d|] == d;
    NatToStringValue(n);
  }

  /** The seconds part of a rendered duration. */
  function SecondsPart(d: TimeDuration): string {
    if d.seconds == 0 then ""
    else if d.hours > 0 || d.minutes > 0 then NatToString(d.seconds)
    else NatToString(d.seconds) + "s"
  }

  lemma ReadSecondsPart(d: TimeDuration)
    ensures ReadTimeDuration(SecondsPart(d)) == Some(TimeDuration(0, 0, d.seconds))
  {
    if d.seconds > 0 {
      if d.hours > 0 || d.minutes > 0 {
        ReadBareSeconds(d.seconds);
      } else {
        ReadPart(d.seconds, 's', "");
        assert NatToString(d.seconds) + "s" == NatToString(d.seconds) + ['s'] + "";
      }
    }
  }

  lemma ReadMinutesPart(d: TimeDuration)
    ensures var m := if d.minutes > 0 then NatToString(d.minutes) + "m" else "";
      ReadTimeDuration(m + SecondsPart(d)) == Some(TimeDuration(0, d.minutes, d.seconds))
  {
    ReadSecondsPart(d);
    if d.minutes > 0 {
      ReadPart(d.minutes, 'm', SecondsPart(d));
      assert NatToString(d.minutes) + "m" + SecondsPart(d) == NatToString(d.minutes) + ['m'] + SecondsPart(d);
    } else {
      assert "" + SecondsPart(d) == SecondsPart(d);
    }
  }

  lemma RenderedParts(d: TimeDuration)
    requires HasAnyValue(d)
    ensures var h := if d.hours > 0 then NatToString(d.hours) + "h" else "";
      var m := if d.minutes > 0 then NatToString(d.minutes) + "m" else "";
      RenderTimeDuration(d) == Ok(h + (m + SecondsPart(d)))
  {
    var h := if d.hours > 0 then NatToString(d.hours) + "h" else "";
    var m := if d.minutes > 0 then NatToString(d.minutes) + "m" else "";
    assert h + m + SecondsPart(d) == h + (m + SecondsPart(d));
    assert h + m + SecondsPart(d) != "" by {
      if d.hours > 0 { assert |h| > 0; }
      else if d.minutes > 0 { assert |m| > 0; }
      else { assert |SecondsPart(d)| > 0; }
    }
  }

  /** The text `renderTimeDuration` writes reads back as the duration. */
  lemma RenderTimeDurationRoundTrip(d: TimeDuration)
    requires HasAnyValue(d)
    ensures RenderTimeDuration(d).Ok? && ReadTimeDuration(RenderTimeDuration(d).value) == Some(d)
  {
    RenderedParts(d);
    ReadMinutesPart(d);
    var m := if d.minutes > 0 then NatToString(d.minutes) + "m" else "";
    if d.hours > 0 {
      ReadPart(d.hours, 'h', m + SecondsPart(d));
      assert NatToString(d.hours) + "h" + (m + SecondsPart(d)) == NatToString(d.hours) + ['h'] + (m + SecondsPart(d));
    } else {
      assert "" + (m + SecondsPart(d)) == m + SecondsPart(d);
    }
  }

  /** `renderTimeDuration` refuses exactly the durations without a positive part. */
  lemma RenderTimeDurationRefuses(d: TimeDuration)
    ensures RenderTimeDuration(d).Err? <==> !HasAnyValue(d)
    ensures RenderTimeDuration(d).Err? ==> RenderTimeDuration(d).error == EmptyDurationError
  {
  }

  /** Two durations with a positive part render the same only when they are equal. */
  lemma RenderTimeDurationInjective(a: TimeDuration, b: TimeDuration)
    requires HasAnyValue(a) && HasAnyValue(b)
    requires RenderTimeDuration(a) == RenderTimeDuration(b)
    ensures a == b
  {
    RenderTimeDurationRoundTrip(a);
    RenderTimeDurationRoundTrip(b);
  }

  /** Seconds carry an "s" only when there are no hours and no minutes ("1m30", "20s"). */
  lemma SecondsSuffix(d: TimeDuration)
    requires d.seconds > 0
    ensures var t := RenderTimeDuration(d).value;
      t[|t| - 1] == 's' <==> d.hours == 0 && d.minutes == 0
  {
    RenderedParts(d);
    var h := if d.hours > 0 then NatToString(d.hours) + "h" else "";
    var m := if d.minutes > 0 then NatToString(d.minutes) + "m" else "";
    var t := h + (m + SecondsPart(d));
    assert t[|t| - 1] == SecondsPart(d)[|SecondsPart(d)| - 1];
    if d.hours > 0 || d.minutes > 0 {
      assert SecondsPart(d) == NatToString(d.seconds);
    }
  }

  // ---------------------------------------------------------------------
  // renderDistance
  // ---------------------------------------------------------------------

  /** The unit a distance text ends with; "km" is tried before its suffix "m". */
  function UnitSuffix(s: string): Option<DistanceUnit> {
    if EndsWith(s, "km") then Some(Kilometres)
    else if EndsWith(s, "mi") then Some(Miles)
    else if EndsWith(s, "yd") then Some(Yards)
    else if EndsWith(s, "m") then Some(Metres)
    else None
  }

  /** A distance read back from the text `renderDistance` writes. */
  function ReadDistance(s: string): Option<Distance> {
    match UnitSuffix(s)
    case None => None
    case Some(u) =>
      match ReadNumber(s[..|s| - |UnitName(u)|])
      case None => None
      case Some(v) => Some(Distance(v, u))
  }

  /** A positive number prints with a digit last. */
  lemma FormatNumberLastDigit(c: int)
    requires c > 0
    ensures var r := FormatNumber(c); IsDigit(r[|r| - 1])
  {
    if c % 100 == 0 {
      assert FormatNumber(c) == NatToString(c / 100);
    }
  }

  lemma UnitAfterNumber(r: string, u: DistanceUnit)
    requires r != [] && IsDigit(r[|r| - 1])
    ensures UnitSuffix(r + UnitName(u)) == Some(u)
    ensures (r + UnitName(u))[..|r + UnitName(u)| - |UnitName(u)|] == r
  {
    var s := r + UnitName(u);
    assert s[..|r|] == r;
    match u
    case Kilometres => assert s[|s| - 2..] == "km";
    case Miles => assert s[|s| - 2..] == "mi";
    case Yards => assert s[|s| - 2..] == "yd";
    case Metres =>
      assert s[|s| - 1..] == "m";
      assert s[|s| - 2] == r[|r| - 1];
  }

  /** `renderDistance` refuses exactly the distances that are not positive. */
  lemma RenderDistanceRefuses(d: Distance)
    ensures RenderDistance(d).Err? <==> d.value <= 0
    ensures RenderDistance(d).Err? ==> RenderDistance(d).error == DistanceError
  {
  }

  /** The text `renderDistance` writes reads back as the distance. */
  lemma RenderDistanceRoundTrip(d: Distance)
    requires d.value > 0
    ensures ReadDistance(RenderDistance(d).value) == Some(d)
  {
    FormatNumberLastDigit(d.value);
    UnitAfterNumber(FormatNumber(d.value), d.unit);
    FormatNumberRoundTrip(d.value);
  }

  // ---------------------------------------------------------------------
  // Ramp and zone labels
  // ---------------------------------------------------------------------

  lemma NumLabel(n: int)
    ensures RampLabel(Some(Num(n))) == FormatNumber(n)
  {
  }

  /** The text of a numeric ramp before trimming, from the labels of its ends. */
  lemma NumericRampLabels(a: int, e: Option<Endpoint>)
    requires e.None? || e.value.Num?
    ensures RampText(Num(a), e, None, None) == Trim("ramp " + (if RampLabel(e) != "" then RampLabel(Some(Num(a))) + "-" + RampLabel(e) else RampLabel(Some(Num(a)))) + "%" + " FTP")
  {
  }

  /** The range of a numeric ramp: the start, then "-" and the end when there is one. */
  lemma NumericRange(a: int, e: Option<Endpoint>)
    requires e.None? || e.value.Num?
    ensures (if RampLabel(e) != "" then RampLabel(Some(Num(a))) + "-" + RampLabel(e) else RampLabel(Some(Num(a))))
      == FormatNumber(a) + (if e.Some? then "-" + FormatNumber(e.value.n) else "")
  {
    NumLabel(a);
    if e.Some? {
      NumLabel(e.value.n);
    } else {
      assert RampLabel(e) == "";
    }
  }

  lemma RenderRamp(start: Endpoint, end: Option<Endpoint>, unit: Option<RampUnit>, of: Option<string>)
    ensures RenderSegment(Ramp(start, end, unit, of)) == Ok(RampText(start, end, unit, of))
  {
  }

  lemma RampTrimmed(range: string)
    ensures Trim("ramp " + range + "%" + " FTP") == "ramp " + range + "% FTP"
  {
    var t := "ramp " + range + "% FTP";
    assert "ramp " + range + "%" + " FTP" == t;
    assert t[0] == 'r';
    LastOfConcat("ramp " + range, "% FTP");
    TrimOfTrimmed(t);
  }

  /** A numeric ramp without a unit or label is a percentage of FTP: "ramp 50-75% FTP". */
  lemma NumericRampDefaultsToFtp(a: int, e: Option<Endpoint>)
    requires e.None? || e.value.Num?
    ensures var range := FormatNumber(a) + (if e.Some? then "-" + FormatNumber(e.value.n) else "");
      RenderSegment(Ramp(Num(a), e, None, None)) == Ok("ramp " + range + "% FTP")
  {
    var range := FormatNumber(a) + (if e.Some? then "-" + FormatNumber(e.value.n) else "");
    RenderRamp(Num(a), e, None, None);
    NumericRampLabels(a, e);
    NumericRange(a, e);
    RampTrimmed(range);
  }

  lemma UpperOfLower(m: string)
    ensures Upper(Lower(m)) == Upper(m)
  {
  }

  /** A zone token takes the form "Z<digits>", "Z<digits> HR" or "Z<digits> PACE", whatever its case and spacing. */
  lemma ZoneTokenNormalises(v: string)
    requires ZoneTokenParts(Trim(v)).Some?
    ensures var z := ZoneTokenParts(Trim(v)).value.0;
      var r := NormalizeZoneToken(v);
      r == "Z" + z || r == "Z" + z + " HR" || r == "Z" + z + " PACE"
  {
    var parts := ZoneTokenParts(Trim(v)).value;
    var z := parts.0;
    if parts.1.Some? {
      var m := parts.1.value;
      ModalityUpper(m);
      assert NormalizeZoneToken(v) == "Z" + z + (" " + Upper(m));
      if Upper(m) == "HR" {
        assert " " + Upper(m) == " HR";
      } else {
        assert " " + Upper(m) == " PACE";
      }
    } else {
      assert NormalizeZoneToken(v) == "Z" + z + "";
    }
  }

  /** A modality written "hr" or "pace" in any case is printed "HR" or "PACE". */
  lemma ModalityUpper(m: string)
    requires Lower(m) == "hr" || Lower(m) == "pace"
    ensures Upper(m) == "HR" || Upper(m) == "PACE"
  {
    UpperOfLower(m);
    assert Upper("hr") == "HR" && Upper("pace") == "PACE";
  }

  // ---------------------------------------------------------------------
  // buildIntervalsWorkoutText refuses incomplete plans
  // ---------------------------------------------------------------------

  /** A section without steps and a step without duration or distance are refused by name. */
  lemma IncompleteRefused(section: Section, step: Step)
    ensures section.steps == [] ==> SectionText(section) == Err(NoStepsError(section.title))
    ensures step.duration.None? && step.distance.None? ==> StepLine(section.title, step) == Err(NoMetricError(section.title))
  {
  }

  /** A plan the builder accepts has sections, each with steps, each with a duration or a distance. */
  lemma BuiltPlanComplete(plan: seq<Section>)
    requires BuildWorkoutText(plan).Ok?
    ensures plan != []
    ensures forall j :: 0 <= j < |plan| ==> SectionText(plan[j]).Ok? && plan[j].steps != []
    ensures forall j, k :: 0 <= j < |plan| && 0 <= k < |plan[j].steps| ==>
      plan[j].steps[k].duration.Some? || plan[j].steps[k].distance.Some?
  {
    SectionTextsEach(plan);
    forall j, k | 0 <= j < |plan| && 0 <= k < |plan[j].steps|
      ensures plan[j].steps[k].duration.Some? || plan[j].steps[k].distance.Some?
    {
      StepLinesEach(plan[j].title, plan[j].steps);
    }
  }

  /** The builder reports the error of the first section that cannot be rendered. */
  lemma {:induction false} FirstSectionError(plan: seq<Section>, j: nat)
    requires j < |plan| && SectionText(plan[j]).Err?
    requires forall i :: 0 <= i < j ==> SectionText(plan[i]).Ok?
    ensures BuildWorkoutText(plan) == Err(SectionText(plan[j]).error)
  {
    SectionTextsFirstError(plan, j);
  }

  lemma {:induction false} SectionTextsFirstError(plan: seq<Section>, j: nat)
    requires j < |plan| && SectionText(plan[j]).Err?
    requires forall i :: 0 <= i < j ==> SectionText(plan[i]).Ok?
    ensures SectionTexts(plan) == Err(SectionText(plan[j]).error)
  {
    if j == 0 {
      SectionTextsHeadError(plan);
    } else {
      var rest := plan[1..];
      assert rest[j - 1] == plan[j];
      forall i | 0 <= i < j - 1
        ensures SectionText(rest[i]).Ok?
      {
        assert rest[i] == plan[i + 1];
      }
      SectionTextsFirstError(rest, j - 1);
      SectionTextsTailError(plan);
    }
  }

  lemma SectionTextsHeadError(plan: seq<Section>)
    requires plan != [] && SectionText(plan[0]).Err?
    ensures SectionTexts(plan) == Err(SectionText(plan[0]).error)
  {
  }

  lemma SectionTextsTailError(plan: seq<Section>)
    requires plan != [] && SectionText(plan[0]).Ok? && SectionTexts(plan[1..]).Err?
    ensures SectionTexts(plan) == Err(SectionTexts(plan[1..]).error)
  {
  }

  /** Within a section, the error of the first step that cannot be rendered. */
  lemma {:induction false} FirstStepError(title: string, steps: seq<Step>, k: nat)
    requires k < |steps| && StepLine(title, steps[k]).Err?
    requires forall i :: 0 <= i < k ==> StepLine(title, steps[i]).Ok?
    ensures StepLines(title, steps) == Err(StepLine(title, steps[k]).error)
  {
    if k == 0 {
      StepLinesHeadError(title, steps);
    } else {
      var rest := steps[1..];
      assert rest[k - 1] == steps[k];
      forall i | 0 <= i < k - 1
        ensures StepLine(title, rest[i]).Ok?
      {
        assert rest[i] == steps[i + 1];
      }
      FirstStepError(title, rest, k - 1);
      StepLinesTailError(title, steps);
    }
  }

  lemma StepLinesHeadError(title: string, steps: seq<Step>)
    requires steps != [] && StepLine(title, steps[0]).Err?
    ensures StepLines(title, steps) == Err(StepLine(title, steps[0]).error)
  {
  }

  lemma StepLinesTailError(title: string, steps: seq<Step>)
    requires steps != [] && StepLine(title, steps[0]).Ok? && StepLines(title, steps[1..]).Err?
    ensures StepLines(title, steps) == Err(StepLines(title, steps[1..]).error)
  {
  }
}
