/**
 * The workout tools build a plan's text and then validate it. This module
 * proves that the validator accepts what the builder writes, keeping the
 * number of sections, their titles, repeats and step counts, once the
 * duration pattern recognises every duration the builder renders. It also
 * shows a plan whose text the duration pattern as written rejects.
 */
module IntervalsWorkoutRoundTrip {
  import opened Wrappers
  import opened Strings
  import opened IntervalsWorkout
  import opened Tokens

  // ---------------------------------------------------------------------
  // Units and digit runs
  // ---------------------------------------------------------------------

  predicate LowerLetters(u: string) {
    forall i :: 0 <= i < |u| ==> 'a' <= u[i] <= 'z'
  }

  lemma UnitTables()
    ensures forall i :: 0 <= i < |DurationUnits| ==> DurationUnits[i] != [] && LowerLetters(DurationUnits[i])
    ensures forall i :: 0 <= i < 5 ==> DurationUnits[i][0] == 'h'
    ensures forall i :: 5 <= i < 10 ==> DurationUnits[i][0] == 'm'
    ensures |DurationUnits| == 15 && DurationUnits[0] == "h" && DurationUnits[5] == "m" && DurationUnits[10] == "s"
  {
  }

  lemma DistanceTable()
    ensures DistanceUnits == ["km", "mi", "m", "meter", "meters", "yd", "yds"]
  {
  }

  lemma {:induction false} UnitEndFound(s: string, k: nat, units: seq<string>, j: nat)
    requires j < |units| && UnitAt(s, k, units[j])
    requires forall i :: 0 <= i < j ==> !UnitAt(s, k, units[i])
    ensures UnitEnd(s, k, units) == Some(k + |units[j]|)
  {
    if j > 0 {
      UnitEndFound(s, k, units[1..], j - 1);
    }
  }

  lemma {:induction false} UnitEndMissing(s: string, k: nat, units: seq<string>)
    requires forall i :: 0 <= i < |units| ==> !UnitAt(s, k, units[i])
    ensures UnitEnd(s, k, units) == None
  {
    if units != [] {
      UnitEndMissing(s, k, units[1..]);
    }
  }

  /** A unit that starts with another letter does not match. */
  lemma OtherLetter(s: string, k: nat, u: string)
    requires k < |s| && u != [] && LowerChar(s[k]) != u[0]
    ensures !UnitAt(s, k, u)
  {
    if k + |u| <= |s| {
      assert Lower(s[k..k + |u|])[0] == LowerChar(s[k]);
    }
  }

  /** A unit of letters cannot end or continue where a digit follows the letter at `k`. */
  lemma DigitAfter(s: string, k: nat, u: string)
    requires k + 1 < |s| && IsWordChar(s[k]) && IsDigit(s[k + 1])
    requires u != [] && LowerLetters(u)
    ensures !UnitAt(s, k, u)
  {
    if |u| == 1 {
      assert !Boundary(s, k + 1);
    } else if k + |u| <= |s| {
      assert Lower(s[k..k + |u|])[1] == LowerChar(s[k + 1]);
    }
  }

  lemma NoDurationUnitBeforeDigit(s: string, k: nat)
    requires k + 1 < |s| && IsWordChar(s[k]) && IsDigit(s[k + 1])
    ensures UnitEnd(s, k, DurationUnits) == None
  {
    UnitTables();
    forall i | 0 <= i < |DurationUnits|
      ensures !UnitAt(s, k, DurationUnits[i])
    {
      DigitAfter(s, k, DurationUnits[i]);
    }
    UnitEndMissing(s, k, DurationUnits);
  }

  /** A one-letter unit at `k` followed by a space or the end. */
  predicate LetterAlone(s: string, k: nat, c: char) {
    k < |s| && s[k] == c && (k + 1 == |s| || s[k + 1] == ' ')
  }

  lemma LetterUnit(s: string, k: nat, c: char)
    requires LetterAlone(s, k, c) && 'a' <= c <= 'z'
    ensures UnitAt(s, k, [c])
  {
    assert s[k..k + 1] == [c];
  }

  /** "h", "m" and "s" standing alone are the first duration units that match. */
  lemma SingleDurationUnit(s: string, k: nat, c: char)
    requires c == 'h' || c == 'm' || c == 's'
    requires LetterAlone(s, k, c)
    ensures UnitEnd(s, k, DurationUnits) == Some(k + 1)
  {
    UnitTables();
    LetterUnit(s, k, c);
    forall i | 0 <= i < (if c == 'h' then 0 else if c == 'm' then 5 else 10)
      ensures !UnitAt(s, k, DurationUnits[i])
    {
      OtherLetter(s, k, DurationUnits[i]);
    }
    UnitEndFound(s, k, DurationUnits, if c == 'h' then 0 else if c == 'm' then 5 else 10);
  }

  /** A lower-case name standing alone at `k` is a unit there. */
  lemma NameUnit(s: string, k: nat, name: string)
    requires name != [] && LowerLetters(name)
    requires k + |name| <= |s| && s[k..k + |name|] == name && (k + |name| == |s| || s[k + |name|] == ' ')
    ensures UnitAt(s, k, name)
  {
    assert Lower(s[k..k + |name|]) == name;
  }

  /** The unit names the builder writes are the first distance units that match. */
  lemma DistanceUnitName(s: string, k: nat, u: DistanceUnit)
    requires var name := UnitName(u);
      k + |name| <= |s| && s[k..k + |name|] == name && (k + |name| == |s| || s[k + |name|] == ' ')
    ensures UnitEnd(s, k, DistanceUnits) == Some(k + |UnitName(u)|)
  {
    NameUnit(s, k, UnitName(u));
    match u
    case Kilometres => KilometresFirst(s, k);
    case Miles => MilesFirst(s, k);
    case Metres => MetresFirst(s, k);
    case Yards => YardsFirst(s, k);
  }

  lemma KilometresFirst(s: string, k: nat)
    requires UnitAt(s, k, "km")
    ensures UnitEnd(s, k, DistanceUnits) == Some(k + 2)
  {
    DistanceTable();
    UnitEndFound(s, k, DistanceUnits, 0);
  }

  lemma MilesFirst(s: string, k: nat)
    requires UnitAt(s, k, "mi")
    ensures UnitEnd(s, k, DistanceUnits) == Some(k + 2)
  {
    DistanceTable();
    OtherLetter(s, k, "km");
    UnitEndFound(s, k, DistanceUnits, 1);
  }

  lemma MetresFirst(s: string, k: nat)
    requires UnitAt(s, k, "m")
    ensures UnitEnd(s, k, DistanceUnits) == Some(k + 1)
  {
    DistanceTable();
    OtherLetter(s, k, "km");
    if k + 2 <= |s| {
      assert Lower(s[k..k + 2])[1] == LowerChar(s[k + 1]);
    }
    UnitEndFound(s, k, DistanceUnits, 2);
  }

  lemma YardsFirst(s: string, k: nat)
    requires UnitAt(s, k, "yd")
    ensures UnitEnd(s, k, DistanceUnits) == Some(k + 2)
  {
    DistanceTable();
    forall i | 0 <= i < 5
      ensures !UnitAt(s, k, DistanceUnits[i])
    {
      OtherLetter(s, k, DistanceUnits[i]);
    }
    UnitEndFound(s, k, DistanceUnits, 5);
  }

  predicate Digits(d: string) {
    d != [] && forall i :: 0 <= i < |d| ==> IsDigit(d[i])
  }

  /** The digit run at `i` is exactly `d` when no digit follows it. */
  lemma DigitsThen(s: string, i: nat, d: string)
    requires Digits(d) && i + |d| <= |s| && s[i..i + |d|] == d
    requires i + |d| == |s| || !IsDigit(s[i + |d|])
    ensures DigitEnd(s, i) == i + |d|
  {
    assert forall j :: i <= j < i + |d| ==> s[j] == d[j - i];
  }

  lemma NumberStart(s: string, i: nat, d: string)
    requires Digits(d) && i + |d| < |s| && s[i..i + |d|] == d && !IsDigit(s[i + |d|])
    requires i == 0 || s[i - 1] == ' '
    ensures NumberAt(s, i) == Some(i + |d|)
  {
    assert s[i] == d[0];
    DigitsThen(s, i, d);
  }

  // ---------------------------------------------------------------------
  // Rendered durations and distances are found again
  // ---------------------------------------------------------------------

  /** "45m", "1h", "20s" */
  lemma SingleUnitDuration(s: string, i: nat, d: string, c: char)
    requires Digits(d) && (c == 'h' || c == 'm' || c == 's')
    requires StandsAlone(s, i, d + [c])
    ensures Duration(s, i) == Some(i + |d| + 1)
  {
    var k := i + |d|;
    assert s[i..k] == d && s[k] == c by {
      assert s[i..i + |d| + 1][..|d|] == d;
      assert s[i..i + |d| + 1][|d|] == c;
    }
    NumberStart(s, i, d);
    SingleDurationUnit(s, k, c);
  }

  /** "1m30" */
  lemma MinutesSecondsDuration(s: string, i: nat, dm: string, ds: string)
    requires Digits(dm) && Digits(ds)
    requires StandsAlone(s, i, dm + "m" + ds)
    ensures Duration(s, i) == Some(i + |dm| + 1 + |ds|)
  {
    MinutesSecondsParts(s, i, dm, ds);
    NoDurationUnitBeforeDigit(s, i + |dm|);
  }

  /** The pieces of the pattern's match on "1m30": the number, no unit, the minutes-seconds form. */
  lemma MinutesSecondsParts(s: string, i: nat, dm: string, ds: string)
    requires Digits(dm) && Digits(ds)
    requires StandsAlone(s, i, dm + "m" + ds)
    ensures var k := i + |dm|;
      && k + 1 < |s| && NumberAt(s, i) == Some(k) && IsWordChar(s[k]) && IsDigit(s[k + 1])
      && MinutesSecondsEnd(s, k) == Some(k + 1 + |ds|)
  {
    var k := i + |dm|;
    MinutesTokenPieces(s, i, dm, ds);
    NumberStart(s, i, dm);
    assert s[k + 1] == ds[0];
    DigitsThen(s, k + 1, ds);
  }

  lemma MinutesTokenPieces(s: string, i: nat, dm: string, ds: string)
    requires Digits(dm) && Digits(ds)
    requires i + |dm| + 1 + |ds| <= |s| && s[i..i + |dm| + 1 + |ds|] == dm + "m" + ds
    ensures var k := i + |dm|;
      && s[i..k] == dm && s[k] == 'm' && s[k + 1..k + 1 + |ds|] == ds
  {
    var k := i + |dm|;
    SliceSplit(s, i, dm + "m", ds);
    SliceSplit(s, i, dm, "m");
    assert s[k] == 'm' by { assert s[k..k + 1] == "m"; }
  }

  /** The hours alternative reads "h" + digits + an optional minutes part. */
  lemma HoursEndAt(s: string, k: nat, d2: string, tail: string)
    requires Digits(d2)
    requires tail == "" || tail == "m" || (tail[0] == 'm' && Digits(tail[1..]))
    requires k + 1 + |d2| + |tail| <= |s| && s[k] == 'h'
    requires s[k + 1..k + 1 + |d2|] == d2 && s[k + 1 + |d2|..k + 1 + |d2| + |tail|] == tail
    requires k + 1 + |d2| + |tail| == |s| || s[k + 1 + |d2| + |tail|] == ' '
    ensures HoursEnd(s, k) == Some(k + 1 + |d2| + |tail|)
  {
    var m := k + 1 + |d2|;
    assert s[k + 1] == d2[0];
    DigitsThen(s, k + 1, d2);
    if tail == "" {
    } else if tail == "m" {
      assert s[m] == 'm';
      DigitEndAtSpace(s, m + 1);
    } else {
      assert s[m] == 'm';
      assert s[m + 1..m + |tail|] == tail[1..];
      DigitsThen(s, m + 1, tail[1..]);
    }
  }

  lemma HoursTokenPieces(s: string, i: nat, dh: string, d2: string, tail: string)
    requires Digits(dh) && Digits(d2)
    requires i + |dh| + 1 + |d2| + |tail| <= |s| && s[i..i + |dh| + 1 + |d2| + |tail|] == dh + "h" + d2 + tail
    ensures var k := i + |dh|;
      && s[i..k] == dh && s[k] == 'h' && s[k + 1] == d2[0]
      && s[k + 1..k + 1 + |d2|] == d2 && s[k + 1 + |d2|..k + 1 + |d2| + |tail|] == tail
  {
    var k := i + |dh|;
    SliceSplit(s, i, dh + "h" + d2, tail);
    SliceSplit(s, i, dh + "h", d2);
    SliceSplit(s, i, dh, "h");
    assert s[k] == 'h' by { assert s[k..k + 1] == "h"; }
  }

  /** "1h30m", "1h30", "1h30m15": recognised by the corrected pattern only. */
  lemma HoursDuration(s: string, i: nat, dh: string, d2: string, tail: string)
    requires Digits(dh) && Digits(d2)
    requires tail == "" || tail == "m" || (tail[0] == 'm' && Digits(tail[1..]))
    requires StandsAlone(s, i, dh + "h" + d2 + tail)
    ensures Duration(s, i) == Some(i + |dh + "h" + d2 + tail|)
  {
    var k := i + |dh|;
    var e := k + 1 + |d2| + |tail|;
    HoursParts(s, i, dh, d2, tail);
    NoDurationUnitBeforeDigit(s, k);
    DurationByHours(s, i, k, e);
    assert |dh + "h" + d2 + tail| == e - i;
  }

  /** `HoursDuration` for a token given whole. */
  lemma HoursToken(s: string, i: nat, t: string, dh: string, d2: string, tail: string)
    requires Digits(dh) && Digits(d2)
    requires tail == "" || tail == "m" || (tail[0] == 'm' && Digits(tail[1..]))
    requires t == dh + "h" + d2 + tail && StandsAlone(s, i, t)
    ensures Duration(s, i) == Some(i + |t|)
  {
    HoursDuration(s, i, dh, d2, tail);
  }

  /** The pattern's third alternative decides when the first two do not match. */
  lemma DurationByHours(s: string, i: nat, k: nat, e: nat)
    requires NumberAt(s, i) == Some(k) && UnitEnd(s, k, DurationUnits) == None
    requires MinutesSecondsEnd(s, k) == None && HoursEnd(s, k) == Some(e)
    ensures Duration(s, i) == Some(e)
  {
  }

  /** The pieces of the corrected pattern's match on "1h30m": the number, no unit, no minutes-seconds form, the hours form. */
  lemma HoursParts(s: string, i: nat, dh: string, d2: string, tail: string)
    requires Digits(dh) && Digits(d2)
    requires tail == "" || tail == "m" || (tail[0] == 'm' && Digits(tail[1..]))
    requires StandsAlone(s, i, dh + "h" + d2 + tail)
    ensures var k := i + |dh|;
      && k + 1 < |s| && NumberAt(s, i) == Some(k) && IsWordChar(s[k]) && IsDigit(s[k + 1])
      && MinutesSecondsEnd(s, k) == None && HoursEnd(s, k) == Some(k + 1 + |d2| + |tail|)
  {
    var k := i + |dh|;
    var e := k + 1 + |d2| + |tail|;
    assert |dh + "h" + d2 + tail| == e - i;
    HoursTokenPieces(s, i, dh, d2, tail);
    assert s[k] == 'h' && IsDigit(s[k + 1]);
    NumberStart(s, i, dh);
    assert e == |s| || s[e] == ' ';
    HoursEndAt(s, k, d2, tail);
  }

  lemma DigitEndAtSpace(s: string, i: nat)
    requires i <= |s| && (i == |s| || s[i] == ' ')
    ensures DigitEnd(s, i) == i
  {
  }

  // ---------------------------------------------------------------------
  // The metric tokens the builder writes
  // ---------------------------------------------------------------------

  /**
   * No '.' directly before a digit. A decimal metric needs one, so a
   * sentence-ending period is harmless. This is stronger than the validator
   * needs: the decimal error also wants a duration or distance unit after
   * the fraction, so text such as "2.5 effort" would pass, but ruling out
   * every '.' before a digit keeps the proof about the matchers local.
   */
  predicate NoDotDigit(t: string) {
    forall j :: 0 <= j < |t| - 1 ==> !(t[j] == '.' && IsDigit(t[j + 1]))
  }

  /** Text that raises neither the comment error nor the decimal error. */
  predicate Clean(t: string) {
    '#' !in t && NoDotDigit(t)
  }

  /** Text with no '#' and no '.' at all, as the rendered metric tokens are. */
  predicate Plain(t: string) {
    '#' !in t && '.' !in t
  }

  lemma PlainClean(t: string)
    requires Plain(t)
    ensures Clean(t)
  {
  }

  /** Gluing two texts creates a '.' before a digit only where they meet. */
  lemma NoDotDigitConcat(a: string, b: string)
    requires NoDotDigit(a) && NoDotDigit(b)
    requires a == [] || b == [] || !(a[|a| - 1] == '.' && IsDigit(b[0]))
    ensures NoDotDigit(a + b)
  {
    forall j | 0 <= j < |a + b| - 1
      ensures !((a + b)[j] == '.' && IsDigit((a + b)[j + 1]))
    {
      if j + 1 < |a| {
        assert (a + b)[j] == a[j] && (a + b)[j + 1] == a[j + 1];
      } else if j >= |a| {
        assert (a + b)[j] == b[j - |a|] && (a + b)[j + 1] == b[j + 1 - |a|];
      } else {
        assert (a + b)[j] == a[|a| - 1] && (a + b)[j + 1] == b[0];
      }
    }
  }

  lemma NoDotDigitSlice(s: string, lo: nat, hi: nat)
    requires lo <= hi <= |s| && NoDotDigit(s)
    ensures NoDotDigit(s[lo..hi])
  {
    forall j | 0 <= j < hi - lo - 1
      ensures !(s[lo..hi][j] == '.' && IsDigit(s[lo..hi][j + 1]))
    {
      assert s[lo..hi][j] == s[lo + j] && s[lo..hi][j + 1] == s[lo + j + 1];
    }
  }

  /** `trim` keeps a slice of the text. */
  lemma TrimNoDotDigit(s: string)
    requires NoDotDigit(s)
    ensures NoDotDigit(Trim(s))
  {
    var t := TrimStart(s);
    TrimStartSuffix(s);
    NoDotDigitSlice(s, |s| - |t|, |s|);
    TrimEndPrefix(t);
    NoDotDigitSlice(t, 0, |TrimEnd(t)|);
  }

  /** Collapsing whitespace puts only spaces next to a '.'. */
  lemma {:induction false} CollapseNoDotDigit(s: string)
    requires NoDotDigit(s)
    ensures NoDotDigit(CollapseWhitespace(s))
    decreases |s|
  {
    if s != [] {
      if IsWhitespace(s[0]) {
        var t := TrimStart(s);
        TrimStartSuffix(s);
        NoDotDigitSlice(s, |s| - |t|, |s|);
        CollapseNoDotDigit(t);
        NoDotDigitConcat([' '], CollapseWhitespace(t));
      } else {
        var rest := s[1..];
        NoDotDigitSlice(s, 1, |s|);
        CollapseNoDotDigit(rest);
        var c := CollapseWhitespace(rest);
        if s[0] == '.' && c != [] {
          if IsWhitespace(rest[0]) {
            assert c[0] == ' ';
          } else {
            assert c[0] == rest[0] == s[1];
          }
        }
        NoDotDigitConcat([s[0]], c);
      }
    }
  }

  /** Digits followed by one letter. */
  lemma DigitsLetter(d: string, c: char)
    requires Digits(d) && 'a' <= c <= 'z'
    ensures Solid(d + [c]) && Plain(d + [c])
  {
    assert forall i :: 0 <= i < |d| ==> (d + [c])[i] == d[i];
  }

  lemma SolidPlainConcat(a: string, b: string)
    requires Solid(a) && Plain(a) && Solid(b) && Plain(b)
    ensures Solid(a + b) && Plain(a + b)
  {
    assert forall i :: 0 <= i < |a + b| ==> (a + b)[i] == if i < |a| then a[i] else b[i - |a|];
  }

  lemma DigitsSolid(d: string)
    requires Digits(d)
    ensures Solid(d) && Plain(d)
  {
  }

  /** A rendered duration is one clean token. */
  lemma DurationTokenClean(d: TimeDuration)
    requires HasAnyValue(d)
    ensures Solid(RenderTimeDuration(d).value) && Plain(RenderTimeDuration(d).value)
    ensures Clean(RenderTimeDuration(d).value)
  {
    var dh, dm, ds := NatToString(d.hours), NatToString(d.minutes), NatToString(d.seconds);
    var hours := if d.hours > 0 then dh + "h" else "";
    var minutes := if d.minutes > 0 then dm + "m" else "";
    var seconds := if d.seconds == 0 then "" else if d.hours > 0 || d.minutes > 0 then ds else ds + "s";
    assert RenderTimeDuration(d).value == hours + minutes + seconds;
    if d.hours > 0 { DigitsLetter(dh, 'h'); }
    if d.minutes > 0 { DigitsLetter(dm, 'm'); }
    if d.seconds > 0 {
      if d.hours > 0 || d.minutes > 0 { DigitsSolid(ds); } else { DigitsLetter(ds, 's'); }
    }
    if hours == "" {
      assert hours + minutes + seconds == minutes + seconds;
    } else if minutes == "" {
      assert hours + minutes + seconds == hours + seconds;
    } else {
      SolidPlainConcat(hours, minutes);
    }
    if minutes + seconds != "" && hours + minutes != "" && seconds != "" {
      SolidPlainConcat(hours + minutes, seconds);
    }
  }

  lemma HoursOnlyFound(s: string, i: nat, d: TimeDuration)
    requires d.hours > 0 && d.minutes == 0 && d.seconds == 0
    requires StandsAlone(s, i, RenderTimeDuration(d).value)
    ensures Duration(s, i) == Some(i + |RenderTimeDuration(d).value|)
  {
    var dh := NatToString(d.hours);
    assert RenderTimeDuration(d).value == dh + ['h'];
    SingleUnitDuration(s, i, dh, 'h');
  }

  lemma HoursMinutesFound(s: string, i: nat, d: TimeDuration)
    requires d.hours > 0 && d.minutes > 0
    requires StandsAlone(s, i, RenderTimeDuration(d).value)
    ensures Duration(s, i) == Some(i + |RenderTimeDuration(d).value|)
  {
    RenderedHoursMinutes(d);
    HoursToken(s, i, RenderTimeDuration(d).value, NatToString(d.hours), NatToString(d.minutes), MinutesTail(d.seconds));
  }

  /** What follows the minutes digits in a duration with hours and minutes. */
  function MinutesTail(seconds: nat): (r: string)
    ensures r != [] && (r == "m" || (r[0] == 'm' && Digits(r[1..])))
  {
    if seconds == 0 then "m"
    else
      assert ("m" + NatToString(seconds))[1..] == NatToString(seconds);
      "m" + NatToString(seconds)
  }

  lemma RenderedHoursMinutes(d: TimeDuration)
    requires d.hours > 0 && d.minutes > 0
    ensures RenderTimeDuration(d).value == NatToString(d.hours) + "h" + NatToString(d.minutes) + MinutesTail(d.seconds)
  {
  }

  lemma HoursSecondsFound(s: string, i: nat, d: TimeDuration)
    requires d.hours > 0 && d.minutes == 0 && d.seconds > 0
    requires StandsAlone(s, i, RenderTimeDuration(d).value)
    ensures Duration(s, i) == Some(i + |RenderTimeDuration(d).value|)
  {
    RenderedHoursSeconds(d);
    HoursToken(s, i, RenderTimeDuration(d).value, NatToString(d.hours), NatToString(d.seconds), "");
  }

  lemma RenderedHoursSeconds(d: TimeDuration)
    requires d.hours > 0 && d.minutes == 0 && d.seconds > 0
    ensures RenderTimeDuration(d).value == NatToString(d.hours) + "h" + NatToString(d.seconds) + ""
  {
    assert NatToString(d.hours) + "h" + NatToString(d.seconds) + "" == NatToString(d.hours) + "h" + NatToString(d.seconds);
  }

  lemma MinutesOnlyFound(s: string, i: nat, d: TimeDuration)
    requires d.hours == 0 && d.minutes > 0 && d.seconds == 0
    requires StandsAlone(s, i, RenderTimeDuration(d).value)
    ensures Duration(s, i) == Some(i + |RenderTimeDuration(d).value|)
  {
    var dm := NatToString(d.minutes);
    assert RenderTimeDuration(d).value == dm + ['m'];
    SingleUnitDuration(s, i, dm, 'm');
  }

  lemma MinutesSecondsFound(s: string, i: nat, d: TimeDuration)
    requires d.hours == 0 && d.minutes > 0 && d.seconds > 0
    requires StandsAlone(s, i, RenderTimeDuration(d).value)
    ensures Duration(s, i) == Some(i + |RenderTimeDuration(d).value|)
  {
    RenderedMinutesSeconds(d);
    MinutesSecondsDuration(s, i, NatToString(d.minutes), NatToString(d.seconds));
  }

  lemma RenderedMinutesSeconds(d: TimeDuration)
    requires d.hours == 0 && d.minutes > 0 && d.seconds > 0
    ensures RenderTimeDuration(d).value == NatToString(d.minutes) + "m" + NatToString(d.seconds)
  {
  }

  lemma SecondsOnlyFound(s: string, i: nat, d: TimeDuration)
    requires d.hours == 0 && d.minutes == 0 && d.seconds > 0
    requires StandsAlone(s, i, RenderTimeDuration(d).value)
    ensures Duration(s, i) == Some(i + |RenderTimeDuration(d).value|)
  {
    var ds := NatToString(d.seconds);
    assert RenderTimeDuration(d).value == ds + ['s'];
    SingleUnitDuration(s, i, ds, 's');
  }

  /** The corrected pattern finds every rendered duration where it stands alone. */
  lemma DurationTokenFound(s: string, i: nat, d: TimeDuration)
    requires HasAnyValue(d) && StandsAlone(s, i, RenderTimeDuration(d).value)
    ensures Duration(s, i) == Some(i + |RenderTimeDuration(d).value|)
  {
    if d.hours > 0 {
      if d.minutes > 0 {
        HoursMinutesFound(s, i, d);
      } else if d.seconds > 0 {
        HoursSecondsFound(s, i, d);
      } else {
        HoursOnlyFound(s, i, d);
      }
    } else if d.minutes > 0 {
      if d.seconds > 0 {
        MinutesSecondsFound(s, i, d);
      } else {
        MinutesOnlyFound(s, i, d);
      }
    } else {
      SecondsOnlyFound(s, i, d);
    }
  }

  /** A whole-number distance is one clean token. */
  lemma DistanceTokenClean(d: Distance)
    requires d.value > 0 && d.value % 100 == 0
    ensures Solid(RenderDistance(d).value) && Plain(RenderDistance(d).value)
    ensures Clean(RenderDistance(d).value)
  {
    var digits := NatToString(d.value / 100);
    var name := UnitName(d.unit);
    assert RenderDistance(d).value == digits + name;
    assert Solid(name) && Plain(name);
    DigitsSolid(digits);
    SolidPlainConcat(digits, name);
  }

  /** The distance pattern finds a whole-number distance where it stands alone. */
  lemma DistanceTokenFound(s: string, i: nat, d: Distance)
    requires d.value > 0 && d.value % 100 == 0 && StandsAlone(s, i, RenderDistance(d).value)
    ensures DistanceAt(s, i) == Some(i + |RenderDistance(d).value|)
  {
    RenderedWholeDistance(d);
    DigitsUnitFound(s, i, NatToString(d.value / 100), d.unit);
  }

  lemma RenderedWholeDistance(d: Distance)
    requires d.value > 0 && d.value % 100 == 0
    ensures RenderDistance(d).value == NatToString(d.value / 100) + UnitName(d.unit)
  {
  }

  /** Digits and a distance unit standing alone are matched whole by the distance pattern. */
  lemma DigitsUnitFound(s: string, i: nat, digits: string, u: DistanceUnit)
    requires Digits(digits) && StandsAlone(s, i, digits + UnitName(u))
    ensures DistanceAt(s, i) == Some(i + |digits + UnitName(u)|)
  {
    var name := UnitName(u);
    SliceSplit(s, i, digits, name);
    assert s[i + |digits|] == name[0];
    NumberStart(s, i, digits);
    DistanceUnitName(s, i + |digits|, u);
  }

  // ---------------------------------------------------------------------
  // A step line keeps its first metric token standing alone
  // ---------------------------------------------------------------------

  /** Where the first metric token starts in a step line's text. */
  function FirstTokenIndex(prefix: string): nat {
    if prefix == [] then 0 else |TrimStart(CollapseWhitespace(prefix) + " ")|
  }

  /** The line text joins the prefix and the metrics; the first metric token stands alone in it. */
  lemma FullLineShape(prefix: string, t: string, r: string)
    requires prefix == [] || !IsWhitespace(prefix[|prefix| - 1])
    requires Solid(t)
    requires r == [] || r[0] == ' '
    ensures StandsAlone(FullLine(prefix, t + r), FirstTokenIndex(prefix), t)
  {
    if prefix == [] {
      assert Join([t + r], " ") == t + r;
      TokenFirst(t, r);
    } else {
      assert Join([prefix, t + r], " ") == prefix + (" " + (t + r));
      TokenAfterWord(prefix, t, r);
    }
  }

  // ---------------------------------------------------------------------
  // Step lines the validator accepts
  // ---------------------------------------------------------------------

  lemma NoMatchAnywhere(m: Matcher, s: string)
    requires forall q :: 0 <= q <= |s| ==> !MatchesAt(m, s, q)
    ensures AllMatches(m, s, 0) == []
  {
    assert NextMatch(m, s, 0).None?;
  }

  lemma MatchFound(m: Matcher, s: string, i: nat)
    requires MatchesAt(m, s, i)
    ensures AllMatches(m, s, 0) != []
  {
    assert NextMatch(m, s, 0).Some?;
  }

  /** Text without a '.' before a digit holds no decimal duration or distance. */
  lemma NoDecimals(s: string)
    requires NoDotDigit(s)
    ensures AllMatches(DecimalAt, s, 0) == []
  {
    forall q | 0 <= q <= |s|
      ensures !MatchesAt(DecimalAt, s, q)
    {
      match NumberAt(s, q)
      case None =>
      case Some(k) =>
        assert !(k + 1 < |s| && s[k] == '.' && IsDigit(s[k + 1]));
    }
    NoMatchAnywhere(DecimalAt, s);
  }

  lemma DashLineTrimmed(f: string)
    requires f != [] && !IsWhitespace(f[|f| - 1])
    ensures Trim("- " + f) == "- " + f
  {
    LastOfConcat("- ", f);
    TrimOfTrimmed("- " + f);
  }

  lemma SpaceThenText(f: string)
    requires f != [] && !IsWhitespace(f[0])
    ensures TrimStart(" " + f) == f
  {
    assert (" " + f)[1..] == f;
  }

  /** What the validator reads as the content of a "- " line whose text is trimmed. */
  lemma StepContent(f: string)
    requires f != [] && !IsWhitespace(f[0]) && !IsWhitespace(f[|f| - 1])
    ensures Trim(StripStepPrefix("- " + f)) == f
  {
    assert ("- " + f)[1..] == " " + f;
    SpaceThenText(f);
    TrimOfTrimmed(f);
  }

  /**
   * A step line whose text is trimmed, has no comment and no decimal metric,
   * and holds a duration or distance the patterns find, has no error.
   */
  lemma CleanStepLine(f: string, n: nat, pats: Patterns)
    requires f != [] && !IsWhitespace(f[0]) && !IsWhitespace(f[|f| - 1])
    requires Clean(f)
    requires HasMetric(f, pats)
    ensures Trim("- " + f) == "- " + f
    ensures ParseStepLine("- " + f, n, pats).errors == []
  {
    NoStepErrors(f, n, pats);
    DashLineTrimmed(f);
    StepContent(f);
    StepLineErrors("- " + f, n, pats);
    NoComment(f);
  }

  /** The duration or the distance pattern finds something in the text. */
  predicate HasMetric(f: string, pats: Patterns) {
    AllMatches(pats.duration, f, 0) != [] || AllMatches(DistanceAt, f, 0) != []
  }

  lemma NoComment(f: string)
    requires '#' !in f
    ensures SplitComment(f) == (f, None)
  {
  }

  lemma NoStepErrors(f: string, n: nat, pats: Patterns)
    requires NoDotDigit(f)
    requires HasMetric(f, pats)
    ensures StepErrors(n, f, f, None, pats) == []
  {
    NoDecimals(f);
  }

  /** Where the errors of a parsed step come from. */
  lemma StepLineErrors(line: string, n: nat, pats: Patterns)
    ensures var w := Trim(StripStepPrefix(line));
      ParseStepLine(line, n, pats).errors ==
        if w == "" then [EmptyStepError(n)] else StepErrors(n, w, SplitComment(w).0, SplitComment(w).1, pats)
  {
  }

  // ---------------------------------------------------------------------
  // The step lines the builder writes
  // ---------------------------------------------------------------------

  predicate CleanOption(o: Option<string>) {
    o.Some? ==> Clean(o.value)
  }

  /** Every segment that renders renders without '#' and without a '.' before a digit. */
  predicate CleanSegments(segments: seq<Segment>) {
    forall k :: 0 <= k < |segments| ==> RenderSegment(segments[k]).Ok? ==> Clean(RenderSegment(segments[k]).value)
  }

  /**
   * A step the validator can read back: prompt, notes and segments without
   * '#' and without a '.' before a digit (a sufficient condition, see
   * NoDotDigit), and a distance in whole units.
   */
  predicate CleanStep(step: Step) {
    && CleanOption(step.prompt) && CleanOption(step.notes)
    && (step.distance.Some? ==> step.distance.value.value % 100 == 0)
    && CleanSegments(step.segments)
  }

  predicate AllClean(parts: seq<string>) {
    forall j :: 0 <= j < |parts| ==> Clean(parts[j])
  }

  /** The text of a step line as the validator needs it. */
  predicate GoodText(f: string, pats: Patterns) {
    && f != [] && !IsWhitespace(f[0]) && !IsWhitespace(f[|f| - 1])
    && Clean(f) && '\n' !in f && HasMetric(f, pats)
  }

  lemma {:induction false} SegmentTokensClean(segments: seq<Segment>)
    requires CleanSegments(segments) && SegmentTokens(segments).Ok?
    ensures AllClean(SegmentTokens(segments).value)
  {
    if segments != [] {
      var init := segments[..|segments| - 1];
      assert CleanSegments(init) by {
        forall k | 0 <= k < |init|
          ensures RenderSegment(init[k]).Ok? ==> Clean(RenderSegment(init[k]).value)
        {
          assert init[k] == segments[k];
        }
      }
      SegmentTokensClean(init);
    }
  }

  lemma {:induction false} CleanJoin(parts: seq<string>, sep: string)
    requires AllClean(parts) && sep == " "
    ensures Clean(Join(parts, sep))
  {
    JoinAvoids(parts, sep, '#');
    if |parts| > 1 {
      CleanJoin(parts[1..], sep);
      NoDotDigitConcat(parts[0], sep);
      NoDotDigitConcat(parts[0] + sep, Join(parts[1..], sep));
      assert Join(parts, sep) == parts[0] + sep + Join(parts[1..], sep);
    }
  }

  lemma CleanTrimmed(o: Option<string>)
    requires CleanOption(o)
    ensures AllClean(TrimmedText(o))
  {
    if o.Some? {
      TrimAvoids(o.value, '#');
      TrimNoDotDigit(o.value);
    }
  }

  lemma CleanPrefix(prompt: Option<string>, notes: Option<string>)
    requires CleanOption(prompt) && CleanOption(notes)
    ensures Clean(TextPrefix(prompt, notes))
  {
    var parts := TrimmedText(prompt) + TrimmedText(notes);
    CleanTrimmed(prompt);
    CleanTrimmed(notes);
    assert AllClean(parts);
    CleanJoin(parts, " ");
    TrimAvoids(Join(parts, " "), '#');
    TrimNoDotDigit(Join(parts, " "));
  }

  lemma CleanFullLine(prefix: string, metrics: string)
    requires Clean(prefix) && Clean(metrics)
    ensures Clean(FullLine(prefix, metrics))
  {
    var chunks := (if prefix != "" then [prefix] else []) + (if metrics != "" then [metrics] else []);
    assert AllClean(chunks);
    CleanJoin(chunks, " ");
    var joined := Join(chunks, " ");
    CollapseAvoids(joined, '#');
    CollapseNoDotDigit(joined);
    TrimAvoids(CollapseWhitespace(joined), '#');
    TrimNoDotDigit(CollapseWhitespace(joined));
  }

  /** What follows the first part of a join by spaces. */
  function JoinRest(parts: seq<string>): (r: string)
    requires parts != []
    ensures Join(parts, " ") == parts[0] + r
    ensures r == [] || r[0] == ' '
  {
    if |parts| == 1 then "" else " " + Join(parts[1..], " ")
  }

  /** The first metric token: the duration when there is one, else the distance. */
  lemma MetricTokensFirst(step: Step)
    requires CleanStep(step) && (step.duration.Some? || step.distance.Some?)
    requires MetricTokens(step).Ok?
    ensures var tokens := MetricTokens(step).value;
      && tokens != [] && AllClean(tokens) && Solid(tokens[0])
      && (step.duration.Some? ==> HasAnyValue(step.duration.value) && tokens[0] == RenderTimeDuration(step.duration.value).value)
      && (step.duration.None? ==> step.distance.value.value > 0 && tokens[0] == RenderDistance(step.distance.value).value)
  {
    if step.duration.Some? {
      DurationTokenClean(step.duration.value);
    }
    if step.distance.Some? {
      DistanceTokenClean(step.distance.value);
    }
  }

  lemma StepLineText(title: string, step: Step)
    requires StepLine(title, step).Ok?
    ensures step.duration.Some? || step.distance.Some?
    ensures MetricTokens(step).Ok? && SegmentTokens(step.segments).Ok?
    ensures StepLine(title, step).value ==
      "- " + FullLine(TextPrefix(step.prompt, step.notes), Join(MetricTokens(step).value + SegmentTokens(step.segments).value, " "))
  {
  }

  /** The first token the corrected patterns find in a step line's text. */
  lemma FirstTokenFound(f: string, i: nat, step: Step, pats: Patterns)
    requires pats.duration == Duration
    requires step.duration.Some? ==> HasAnyValue(step.duration.value) && StandsAlone(f, i, RenderTimeDuration(step.duration.value).value)
    requires step.duration.None? ==>
      && step.distance.Some? && step.distance.value.value > 0 && step.distance.value.value % 100 == 0
      && StandsAlone(f, i, RenderDistance(step.distance.value).value)
    ensures HasMetric(f, pats)
  {
    if step.duration.Some? {
      DurationTokenFound(f, i, step.duration.value);
      MatchFound(pats.duration, f, i);
    } else {
      DistanceTokenFound(f, i, step.distance.value);
      MatchFound(DistanceAt, f, i);
    }
  }

  /** The text of a clean step's line: trimmed, clean, and with a metric the corrected patterns find. */
  lemma StepTextGood(step: Step, pats: Patterns)
    requires pats.duration == Duration
    requires CleanStep(step) && (step.duration.Some? || step.distance.Some?)
    requires MetricTokens(step).Ok? && SegmentTokens(step.segments).Ok?
    ensures GoodText(FullLine(TextPrefix(step.prompt, step.notes),
                              Join(MetricTokens(step).value + SegmentTokens(step.segments).value, " ")), pats)
  {
    var metrics := MetricTokens(step).value;
    var tokens := metrics + SegmentTokens(step.segments).value;
    MetricTokensFirst(step);
    SegmentTokensClean(step.segments);
    assert AllClean(tokens) && tokens[0] == metrics[0];
    var prefix := TextPrefix(step.prompt, step.notes);
    CleanPrefix(step.prompt, step.notes);
    var joined := Join(tokens, " ");
    CleanJoin(tokens, " ");
    var f := FullLine(prefix, joined);
    CleanFullLine(prefix, joined);
    var t, r := tokens[0], JoinRest(tokens);
    FullLineShape(prefix, t, r);
    FirstTokenFound(f, FirstTokenIndex(prefix), step, pats);
    FullLineOneLine(prefix, joined);
  }

  /** A step line's text has no line break: collapsing turned every whitespace run into a space. */
  lemma FullLineOneLine(prefix: string, metrics: string)
    ensures '\n' !in FullLine(prefix, metrics)
  {
    var chunks := (if prefix != "" then [prefix] else []) + (if metrics != "" then [metrics] else []);
    var collapsed := CollapseWhitespace(Join(chunks, " "));
    assert forall i :: 0 <= i < |collapsed| ==> collapsed[i] != '\n';
    TrimAvoids(collapsed, '\n');
  }

  /** A clean step's line is "- " and a text the validator accepts, for the corrected duration pattern. */
  lemma BuiltStepLine(title: string, step: Step, pats: Patterns)
    requires pats.duration == Duration
    requires CleanStep(step) && StepLine(title, step).Ok?
    ensures var line := StepLine(title, step).value;
      |line| >= 2 && line[..2] == "- " && GoodText(line[2..], pats)
  {
    StepLineText(title, step);
    StepTextGood(step, pats);
    var f := FullLine(TextPrefix(step.prompt, step.notes),
                      Join(MetricTokens(step).value + SegmentTokens(step.segments).value, " "));
    var line := "- " + f;
    assert line[..2] == "- " && line[2..] == f;
  }

  // ---------------------------------------------------------------------
  // Headings
  // ---------------------------------------------------------------------

  /** A title the validator reads back as written: trimmed, not a step, on one line. */
  predicate CleanTitle(title: string) {
    && title != [] && !IsWhitespace(title[0]) && !IsWhitespace(title[|title| - 1])
    && title[0] != '-'
    && forall i :: 0 <= i < |title| ==> !IsLineTerminator(title[i])
  }

  /** The repeat count the validator should read back. */
  function RepeatOf(section: Section): Option<nat> {
    if section.repeat.Some? && section.repeat.value > 0 then Some(section.repeat.value) else None
  }

  /**
   * A section the validator reads back: a clean title, a positive repeat,
   * and a title that does not itself look like a repeat suffix when the
   * section does not repeat.
   */
  predicate CleanHeading(section: Section) {
    && CleanTitle(section.title)
    && (section.repeat.Some? ==> section.repeat.value > 0)
    && (!Repeats(section) ==> RepeatSuffix(section.title).None?)
  }

  /** The digit run that ends at `j` is exactly `d` when no digit precedes it. */
  lemma DigitsBefore(s: string, j: nat, d: string)
    requires Digits(d) && |d| <= j <= |s| && s[j - |d|..j] == d
    requires j == |d| || !IsDigit(s[j - |d| - 1])
    ensures DigitStart(s, j) == j - |d|
  {
    assert forall k :: j - |d| <= k < j ==> s[k] == d[k - (j - |d|)];
  }

  lemma TrimEndOfWord(w: string)
    requires w != [] && !IsWhitespace(w[|w| - 1])
    ensures TrimEnd(w) == w && TrimEnd(w + " ") == w
  {
    assert (w + " ")[..|w|] == w;
  }

  lemma RepeatHeadingPieces(title: string, d: string)
    requires CleanTitle(title) && Digits(d)
    ensures var h := title + " " + d + "x";
      && h[..|h| - 1] == title + " " + d && h[..|title| + 1] == title + " "
      && h[|title| + 1..|h| - 1] == d && h[..|title|] == title && h[|h| - 1] == 'x'
  {
  }

  /** "title Nx" has the repeat suffix N after the title. */
  lemma RepeatHeadingSuffix(title: string, n: nat)
    requires CleanTitle(title)
    ensures RepeatSuffix(title + " " + NatToString(n) + "x") == Some((title, NatToString(n)))
  {
    var d := NatToString(n);
    assert Digits(d);
    RepeatSuffixOf(title, d);
  }

  lemma RepeatSuffixOf(title: string, d: string)
    requires CleanTitle(title) && Digits(d)
    ensures RepeatSuffix(title + " " + d + "x") == Some((title, d))
  {
    var h := title + " " + d + "x";
    RepeatHeadingPieces(title, d);
    TrimEndOfWord(title + " " + d);
    TrimEndOfWord(title);
    DigitsBefore(h, |h| - 1, d);
    assert |TrimEnd(h[..|h| - 1])| == |h| - 1;
    assert DigitStart(h, |h| - 1) == |title| + 1;
    assert |TrimEnd(h[..|title| + 1])| == |title|;
  }

  /** "title Nx" is one trimmed line that is not a step. */
  lemma RepeatHeadingLine(title: string, n: nat)
    requires CleanTitle(title)
    ensures var h := title + " " + NatToString(n) + "x";
      && h != [] && Trim(h) == h && h[0] != '-'
      && (forall i :: 0 <= i < |h| ==> !IsLineTerminator(h[i]))
  {
    var d := NatToString(n);
    var h := title + " " + d + "x";
    assert h[0] == title[0] && h[|h| - 1] == 'x';
    TrimOfTrimmed(h);
    assert forall i :: 0 <= i < |h| ==> h[i] == 'x' || h[i] == ' ' || IsDigit(h[i]) || h[i] in title;
  }

  lemma {:induction false} NoLineTerminator(s: string)
    requires forall i :: 0 <= i < |s| ==> !IsLineTerminator(s[i])
    ensures !HasLineTerminator(s)
  {
    if s != [] {
      assert forall i :: 0 <= i < |s| - 1 ==> s[1..][i] == s[i + 1];
      NoLineTerminator(s[1..]);
    }
  }

  lemma RepeatHeadingParse(title: string, n: nat)
    requires CleanTitle(title)
    ensures ParseRepeatSuffix(title + " " + NatToString(n) + "x") == (title, Some(n))
  {
    NoLineTerminator(title);
    RepeatHeadingSuffix(title, n);
    NatToStringValue(n);
    TrimOfTrimmed(title);
  }

  lemma PlainHeadingParse(title: string)
    requires CleanTitle(title) && RepeatSuffix(title).None?
    ensures ParseRepeatSuffix(title) == (title, None)
  {
    NoLineTerminator(title);
    TrimOfTrimmed(title);
  }

  /** The heading is one trimmed line that is not a step, and it reads back as the title and repeat. */
  lemma HeadingRead(section: Section)
    requires CleanHeading(section)
    ensures var h := Heading(section);
      && h != [] && Trim(h) == h && h[0] != '-'
      && (forall i :: 0 <= i < |h| ==> !IsLineTerminator(h[i]))
      && ParseRepeatSuffix(h) == (section.title, RepeatOf(section))
  {
    if Repeats(section) {
      var n: nat := section.repeat.value;
      assert Heading(section) == section.title + " " + NatToString(n) + "x";
      RepeatHeadingLine(section.title, n);
      RepeatHeadingParse(section.title, n);
    } else {
      TrimOfTrimmed(section.title);
      PlainHeadingParse(section.title);
    }
  }

  // ---------------------------------------------------------------------
  // The layout of the text
  // ---------------------------------------------------------------------

  lemma {:induction false} StepLinesEach(title: string, steps: seq<Step>)
    requires StepLines(title, steps).Ok?
    ensures |StepLines(title, steps).value| == |steps|
    ensures forall k :: 0 <= k < |steps| ==>
      StepLine(title, steps[k]).Ok? && StepLines(title, steps).value[k] == StepLine(title, steps[k]).value
  {
    if steps != [] {
      StepLinesCons(title, steps);
      StepLinesEach(title, steps[1..]);
      var lines := StepLines(title, steps).value;
      var rest := StepLines(title, steps[1..]).value;
      forall k | 0 <= k < |steps|
        ensures StepLine(title, steps[k]).Ok? && lines[k] == StepLine(title, steps[k]).value
      {
        if k > 0 {
          assert steps[1..][k - 1] == steps[k];
          assert lines[k] == rest[k - 1];
        }
      }
    }
  }

  lemma StepLinesCons(title: string, steps: seq<Step>)
    requires steps != [] && StepLines(title, steps).Ok?
    ensures StepLine(title, steps[0]).Ok? && StepLines(title, steps[1..]).Ok?
    ensures StepLines(title, steps).value == [StepLine(title, steps[0]).value] + StepLines(title, steps[1..]).value
  {
  }

  lemma {:induction false} SectionTextsEach(plan: seq<Section>)
    requires SectionTexts(plan).Ok?
    ensures |SectionTexts(plan).value| == |plan|
    ensures forall j :: 0 <= j < |plan| ==>
      SectionText(plan[j]).Ok? && SectionTexts(plan).value[j] == SectionText(plan[j]).value
  {
    SectionTextsLength(plan);
    forall j | 0 <= j < |plan|
      ensures SectionText(plan[j]).Ok? && SectionTexts(plan).value[j] == SectionText(plan[j]).value
    {
      SectionTextsAt(plan, j);
    }
  }

  lemma {:induction false} SectionTextsLength(plan: seq<Section>)
    requires SectionTexts(plan).Ok?
    ensures |SectionTexts(plan).value| == |plan|
  {
    if plan != [] {
      SectionTextsCons(plan);
      SectionTextsLength(plan[1..]);
    }
  }

  lemma {:induction false} SectionTextsAt(plan: seq<Section>, j: nat)
    requires SectionTexts(plan).Ok? && j < |plan|
    ensures SectionText(plan[j]).Ok? && j < |SectionTexts(plan).value|
    ensures SectionTexts(plan).value[j] == SectionText(plan[j]).value
  {
    SectionTextsCons(plan);
    if j > 0 {
      var rest := plan[1..];
      SectionTextsAt(rest, j - 1);
      assert rest[j - 1] == plan[j];
    }
  }

  lemma SectionTextsCons(plan: seq<Section>)
    requires plan != [] && SectionTexts(plan).Ok?
    ensures SectionText(plan[0]).Ok? && SectionTexts(plan[1..]).Ok?
    ensures SectionTexts(plan).value == [SectionText(plan[0]).value] + SectionTexts(plan[1..]).value
  {
  }

  /** The step lines of a section that renders. */
  function StepLinesOf(section: Section): (r: seq<string>)
    requires SectionText(section).Ok?
    ensures |r| == |section.steps| && r != []
  {
    StepLines(section.title, section.steps).value
  }

  /** A section's lines: its heading, then its step lines. */
  function Block(section: Section): seq<string>
    requires SectionText(section).Ok?
  {
    [Heading(section)] + StepLinesOf(section)
  }

  predicate Renders(plan: seq<Section>) {
    forall j :: 0 <= j < |plan| ==> SectionText(plan[j]).Ok?
  }

  /** The lines of the whole text: the blocks, an empty line between two blocks. */
  function Layout(plan: seq<Section>): seq<string>
    requires plan != [] && Renders(plan)
  {
    if |plan| == 1 then Block(plan[0])
    else Block(plan[0]) + [""] + Layout(plan[1..])
  }

  /** Two joined parts with an empty line between them. */
  lemma JoinWithBlank(b: seq<string>, rest: seq<string>)
    requires b != [] && rest != []
    ensures Join(b + [""] + rest, "\n") == Join(b, "\n") + "\n\n" + Join(rest, "\n")
  {
    JoinAppend(b, [""] + rest, "\n");
    assert ([""] + rest)[1..] == rest;
    assert b + [""] + rest == b + ([""] + rest);
  }

  lemma SectionTextBlock(section: Section)
    requires SectionText(section).Ok?
    ensures SectionText(section).value == Join(Block(section), "\n")
  {
  }

  lemma {:induction false} LayoutJoin(plan: seq<Section>)
    requires plan != [] && SectionTexts(plan).Ok?
    ensures Renders(plan)
    ensures Join(SectionTexts(plan).value, "\n\n") == Join(Layout(plan), "\n")
  {
    SectionTextsEach(plan);
    var texts := SectionTexts(plan).value;
    SectionTextBlock(plan[0]);
    if |plan| > 1 {
      LayoutJoin(plan[1..]);
      assert texts == [texts[0]] + SectionTexts(plan[1..]).value;
      JoinWithBlank(Block(plan[0]), Layout(plan[1..]));
    }
  }

  // ---------------------------------------------------------------------
  // Reading the text back
  // ---------------------------------------------------------------------

  predicate CleanSection(section: Section) {
    CleanHeading(section) && forall k :: 0 <= k < |section.steps| ==> CleanStep(section.steps[k])
  }

  /** A plan whose text the validator reads back: every section and step is clean. */
  predicate CleanPlan(plan: seq<Section>) {
    forall j :: 0 <= j < |plan| ==> CleanSection(plan[j])
  }

  predicate GoodStepLines(lines: seq<string>, pats: Patterns) {
    forall k :: 0 <= k < |lines| ==> |lines[k]| >= 2 && lines[k][..2] == "- " && GoodText(lines[k][2..], pats)
  }

  lemma BlockLinesGood(section: Section, pats: Patterns)
    requires pats.duration == Duration
    requires CleanSection(section) && SectionText(section).Ok?
    ensures GoodStepLines(StepLinesOf(section), pats)
  {
    StepLinesEach(section.title, section.steps);
    var lines := StepLinesOf(section);
    forall k | 0 <= k < |lines|
      ensures |lines[k]| >= 2 && lines[k][..2] == "- " && GoodText(lines[k][2..], pats)
    {
      BuiltStepLine(section.title, section.steps[k], pats);
    }
  }

  lemma GoodLineOneLine(line: string, pats: Patterns)
    requires |line| >= 2 && line[..2] == "- " && GoodText(line[2..], pats)
    ensures '\n' !in line
  {
    assert line == line[..2] + line[2..];
  }

  /** No line of `lines` holds a line break. */
  predicate NoBreaks(lines: seq<string>) {
    forall x :: 0 <= x < |lines| ==> '\n' !in lines[x]
  }

  lemma NoBreaksAround(b: seq<string>, l: seq<string>)
    requires NoBreaks(b) && NoBreaks(l)
    ensures NoBreaks(b + [""] + l)
  {
    forall x | 0 <= x < |b + [""] + l|
      ensures '\n' !in (b + [""] + l)[x]
    {
      if x > |b| {
        assert (b + [""] + l)[x] == l[x - |b| - 1];
      }
    }
  }

  lemma BlockOneLine(section: Section, pats: Patterns)
    requires pats.duration == Duration
    requires CleanSection(section) && SectionText(section).Ok?
    ensures NoBreaks(Block(section))
  {
    var b := Block(section);
    HeadingRead(section);
    BlockLinesGood(section, pats);
    forall x | 0 <= x < |b|
      ensures '\n' !in b[x]
    {
      if x > 0 {
        GoodLineOneLine(StepLinesOf(section)[x - 1], pats);
      }
    }
  }

  lemma {:induction false} LayoutOneLine(plan: seq<Section>, pats: Patterns)
    requires pats.duration == Duration
    requires plan != [] && Renders(plan) && CleanPlan(plan)
    ensures NoBreaks(Layout(plan))
  {
    BlockOneLine(plan[0], pats);
    if |plan| > 1 {
      LayoutOneLine(plan[1..], pats);
      NoBreaksAround(Block(plan[0]), Layout(plan[1..]));
    }
  }

  /** The steps `parse` reads from the step lines `ls`, the first of them at index `idx`. */
  function StepsFrom(ls: seq<string>, idx: nat, parse: StepParser): seq<ParsedStep> {
    if ls == [] then []
    else [parse(ls[0], idx + 1)] + StepsFrom(ls[1..], idx + 1, parse)
  }

  lemma {:induction false} StepsFromEach(ls: seq<string>, idx: nat, parse: StepParser)
    ensures |StepsFrom(ls, idx, parse)| == |ls|
    ensures forall k :: 0 <= k < |ls| ==> StepsFrom(ls, idx, parse)[k] == parse(ls[k], idx + k + 1)
  {
    if ls != [] {
      StepsFromEach(ls[1..], idx + 1, parse);
    }
  }

  /** A line the validator takes for a step: trimmed, starting with `-`. */
  predicate IsDashLine(line: string) {
    line != [] && line[0] == '-' && Trim(line) == line
  }

  /** Every line of `ls` is a step line (stated by recursion, so that it unfolds one line at a time). */
  predicate DashLines(ls: seq<string>) {
    ls != [] ==> IsDashLine(ls[0]) && DashLines(ls[1..])
  }

  /** `parse` finds no error in any line of `ls`, whatever its line number. */
  ghost predicate Accepts(parse: StepParser, ls: seq<string>) {
    ls != [] ==> (forall n :: parse(ls[0], n).errors == []) && Accepts(parse, ls[1..])
  }

  lemma {:induction false} AllDashLines(ls: seq<string>)
    requires forall x :: 0 <= x < |ls| ==> IsDashLine(ls[x])
    ensures DashLines(ls)
  {
    if ls != [] {
      assert forall x :: 0 <= x < |ls| - 1 ==> ls[1..][x] == ls[x + 1];
      AllDashLines(ls[1..]);
    }
  }

  lemma {:induction false} AllAccepted(parse: StepParser, ls: seq<string>)
    requires forall x, n :: 0 <= x < |ls| ==> parse(ls[x], n).errors == []
    ensures Accepts(parse, ls)
  {
    if ls != [] {
      assert forall x :: 0 <= x < |ls| - 1 ==> ls[1..][x] == ls[x + 1];
      AllAccepted(parse, ls[1..]);
    }
  }

  /** A built step line is taken for a step and accepted, whatever its line number. */
  lemma StepLineAccepted(line: string, pats: Patterns)
    requires pats.duration == Duration
    requires |line| >= 2 && line[..2] == "- " && GoodText(line[2..], pats)
    ensures IsDashLine(line) && forall n :: StepParserOf(pats)(line, n).errors == []
  {
    var f := line[2..];
    assert line == "- " + f;
    DashLineTrimmed(f);
    forall n: nat
      ensures StepParserOf(pats)(line, n).errors == []
    {
      CleanStepLine(f, n, pats);
    }
  }

  /** The step lines of a clean section are taken for steps and accepted by the validator's parser. */
  lemma SectionStepsAccepted(section: Section, pats: Patterns)
    requires pats.duration == Duration
    requires CleanSection(section) && SectionText(section).Ok?
    ensures DashLines(StepLinesOf(section)) && Accepts(StepParserOf(pats), StepLinesOf(section))
  {
    var ls := StepLinesOf(section);
    var parse := StepParserOf(pats);
    BlockLinesGood(section, pats);
    forall x | 0 <= x < |ls|
      ensures IsDashLine(ls[x]) && forall n :: parse(ls[x], n).errors == []
    {
      StepLineAccepted(ls[x], pats);
    }
    AllDashLines(ls);
    AllAccepted(parse, ls);
  }

  lemma ReadBlankLine(st: Reading, idx: nat, parse: StepParser)
    ensures ReadLine(st, "", idx, parse) == st
  {
  }

  lemma ReadHeadingLine(st: Reading, section: Section, idx: nat, parse: StepParser)
    requires CleanHeading(section)
    ensures ReadLine(st, Heading(section), idx, parse)
         == Reading(st.sections + [ParsedSection(section.title, RepeatOf(section), [])], st.errors)
  {
    HeadingRead(section);
  }

  /** A trimmed line that starts with `-` and parses without error adds a step to the last section. */
  lemma ReadStepLine(st: Reading, line: string, idx: nat, parse: StepParser)
    requires line != [] && line[0] == '-' && Trim(line) == line
    requires parse(line, idx + 1).errors == []
    ensures ReadLine(st, line, idx, parse) == Reading(AddStep(st.sections, parse(line, idx + 1)), st.errors)
  {
    assert st.errors + [] == st.errors;
  }

  lemma AddStepToLast(before: seq<ParsedSection>, title: string, repeat: Option<nat>, steps: seq<ParsedStep>, step: ParsedStep)
    ensures AddStep(before + [ParsedSection(title, repeat, steps)], step) == before + [ParsedSection(title, repeat, steps + [step])]
  {
    var sections := before + [ParsedSection(title, repeat, steps)];
    assert sections[..|sections| - 1] == before;
  }

  /** How one line changes the state of the validator's loop, at a zero-based line index. */
  type LineReader = (Reading, string, nat) -> Reading

  function ReaderOf(parse: StepParser): LineReader {
    (st: Reading, line: string, idx: nat) => ReadLine(st, line, idx, parse)
  }

  /** Reading the lines `ls` one by one from state `st`, the first of them at index `idx`. */
  function ReadFrom(st: Reading, ls: seq<string>, idx: nat, read: LineReader): Reading
    decreases |ls|
  {
    if ls == [] then st else ReadFrom(read(st, ls[0], idx), ls[1..], idx + 1, read)
  }

  /** Reading the first `k` lines and then the rest reads all of them. */
  lemma {:induction false} ReadLinesThenFrom(lines: seq<string>, k: nat, parse: StepParser)
    requires k <= |lines|
    ensures ReadFrom(ReadLines(lines, k, parse), lines[k..], k, ReaderOf(parse)) == ReadLines(lines, |lines|, parse)
    decreases |lines| - k
  {
    if k < |lines| {
      assert lines[k..][1..] == lines[k + 1..];
      ReadLinesThenFrom(lines, k + 1, parse);
    }
  }

  lemma {:induction false} ReadFromAppend(st: Reading, a: seq<string>, b: seq<string>, idx: nat, read: LineReader)
    ensures ReadFrom(st, a + b, idx, read) == ReadFrom(ReadFrom(st, a, idx, read), b, idx + |a|, read)
    decreases |a|
  {
    if a == [] {
      assert a + b == b;
    } else {
      assert (a + b)[1..] == a[1..] + b;
      ReadFromAppend(read(st, a[0], idx), a[1..], b, idx + 1, read);
    }
  }

  /** `read` adds the step `parse` finds in each line of `ls` to the last section, and no error. */
  ghost predicate StepsJoin(read: LineReader, parse: StepParser, ls: seq<string>, idx: nat)
    decreases |ls|
  {
    ls != [] ==>
      && (forall st {:trigger read(st, ls[0], idx)} :: read(st, ls[0], idx) == Reading(AddStep(st.sections, parse(ls[0], idx + 1)), st.errors))
      && StepsJoin(read, parse, ls[1..], idx + 1)
  }

  /** Step lines after a section's heading join that section, in order, and add no error. */
  lemma {:induction false} ReadStepsFrom(before: seq<ParsedSection>, title: string, repeat: Option<nat>,
                                         steps: seq<ParsedStep>, errors: seq<string>,
                                         ls: seq<string>, idx: nat, read: LineReader, parse: StepParser)
    requires StepsJoin(read, parse, ls, idx)
    ensures ReadFrom(Reading(before + [ParsedSection(title, repeat, steps)], errors), ls, idx, read)
         == Reading(before + [ParsedSection(title, repeat, steps + StepsFrom(ls, idx, parse))], errors)
    decreases |ls|
  {
    if ls == [] {
      assert steps + [] == steps;
    } else {
      var step := parse(ls[0], idx + 1);
      AddStepToLast(before, title, repeat, steps, step);
      ReadStepsFrom(before, title, repeat, steps + [step], errors, ls[1..], idx + 1, read, parse);
      assert steps + [step] + StepsFrom(ls[1..], idx + 1, parse) == steps + StepsFrom(ls, idx, parse);
    }
  }

  /** The validator's own reader joins every accepted step line to the last section. */
  lemma {:induction false} StepLinesJoin(ls: seq<string>, idx: nat, parse: StepParser)
    requires DashLines(ls) && Accepts(parse, ls)
    ensures StepsJoin(ReaderOf(parse), parse, ls, idx)
    decreases |ls|
  {
    if ls != [] {
      forall st: Reading
        ensures ReaderOf(parse)(st, ls[0], idx) == Reading(AddStep(st.sections, parse(ls[0], idx + 1)), st.errors)
      {
        ReadStepLine(st, ls[0], idx, parse);
      }
      StepLinesJoin(ls[1..], idx + 1, parse);
    }
  }

  /** What the validator makes of one section whose heading is at index `idx`. */
  function SectionRead(section: Section, idx: nat, parse: StepParser): ParsedSection
    requires SectionText(section).Ok?
  {
    ParsedSection(section.title, RepeatOf(section), StepsFrom(StepLinesOf(section), idx + 1, parse))
  }

  /** `read` opens a section for the heading of `section` at index `idx`, and its step lines join it. */
  ghost predicate BlockReads(read: LineReader, parse: StepParser, section: Section, idx: nat)
    requires SectionText(section).Ok?
  {
    && (forall st {:trigger read(st, Heading(section), idx)} :: read(st, Heading(section), idx)
                     == Reading(st.sections + [ParsedSection(section.title, RepeatOf(section), [])], st.errors))
    && StepsJoin(read, parse, StepLinesOf(section), idx + 1)
  }

  /** A block read in order: the heading opens a section and every step line joins it. */
  lemma ReadBlock(st: Reading, section: Section, idx: nat, read: LineReader, parse: StepParser)
    requires SectionText(section).Ok? && BlockReads(read, parse, section, idx)
    ensures ReadFrom(st, Block(section), idx, read) == Reading(st.sections + [SectionRead(section, idx, parse)], st.errors)
  {
    var ls := StepLinesOf(section);
    var b := Block(section);
    assert b[0] == Heading(section) && b[1..] == ls;
    ReadStepsFrom(st.sections, section.title, RepeatOf(section), [], st.errors, ls, idx + 1, read, parse);
    assert [] + StepsFrom(ls, idx + 1, parse) == StepsFrom(ls, idx + 1, parse);
  }

  /** `read` leaves the state as it was for an empty line at index `idx`. */
  ghost predicate SkipsBlank(read: LineReader, idx: nat) {
    forall st :: read(st, "", idx) == st
  }

  ghost predicate SkipsBlanks(read: LineReader) {
    forall idx :: SkipsBlank(read, idx)
  }

  lemma BlankSkipped(parse: StepParser)
    ensures SkipsBlanks(ReaderOf(parse))
  {
    forall idx, st: Reading
      ensures ReaderOf(parse)(st, "", idx) == st
    {
      ReadBlankLine(st, idx, parse);
    }
  }

  /** Reading `block` from index `idx` appends `sec` to the sections, whatever came before. */
  ghost predicate BlockTaken(read: LineReader, block: seq<string>, sec: ParsedSection, idx: nat) {
    forall st {:trigger ReadFrom(st, block, idx, read)} :: ReadFrom(st, block, idx, read) == Reading(st.sections + [sec], st.errors)
  }

  /** A section as lines of text: its heading line, its step lines, and the title and repeat the heading stands for. */
  datatype BlockView = BlockView(heading: string, stepLines: seq<string>, title: string, repeat: Option<nat>)

  function LinesOf(v: BlockView): seq<string> {
    [v.heading] + v.stepLines
  }

  /** The section the validator should make of `v` when its heading is at index `idx`. */
  function SecOf(v: BlockView, idx: nat, parse: StepParser): ParsedSection {
    ParsedSection(v.title, v.repeat, StepsFrom(v.stepLines, idx + 1, parse))
  }

  /** The lines of the blocks, with an empty line between two blocks. */
  function Stack(views: seq<BlockView>): seq<string>
    requires views != []
  {
    if |views| == 1 then LinesOf(views[0]) else LinesOf(views[0]) + [""] + Stack(views[1..])
  }

  /** The sections the validator should make of `Stack(views)` read from index `idx`. */
  function ExpectedOf(views: seq<BlockView>, idx: nat, parse: StepParser): (r: seq<ParsedSection>)
    requires views != []
    ensures |r| == |views|
  {
    var head := SecOf(views[0], idx, parse);
    if |views| == 1 then [head]
    else [head] + ExpectedOf(views[1..], idx + |LinesOf(views[0])| + 1, parse)
  }

  /** `read` takes every block for its section, wherever it starts. */
  ghost predicate Takes(read: LineReader, parse: StepParser, views: seq<BlockView>) {
    forall j, idx :: 0 <= j < |views| ==> BlockTaken(read, LinesOf(views[j]), SecOf(views[j], idx, parse), idx)
  }

  lemma {:induction false} ReadViews(st: Reading, views: seq<BlockView>, idx: nat, read: LineReader, parse: StepParser)
    requires views != [] && Takes(read, parse, views) && SkipsBlanks(read)
    ensures ReadFrom(st, Stack(views), idx, read) == Reading(st.sections + ExpectedOf(views, idx, parse), st.errors)
    decreases |views|
  {
    var b := LinesOf(views[0]);
    var head := SecOf(views[0], idx, parse);
    var st1 := Reading(st.sections + [head], st.errors);
    assert BlockTaken(read, b, head, idx);
    if |views| == 1 {
      assert ReadFrom(st, b, idx, read) == st1;
    } else {
      var rest := views[1..];
      var next := idx + |b| + 1;
      assert SkipsBlank(read, idx + |b|);
      ReadBlockThenBlank(st, b, Stack(rest), idx, read, head);
      TakesRest(read, parse, views);
      ReadViews(st1, rest, next, read, parse);
      ConcatAssociative(st.sections, [head], ExpectedOf(rest, next, parse));
    }
  }

  /** A block read whole and then a blank line: the block's section is added and reading goes on after the blank. */
  lemma ReadBlockThenBlank(st: Reading, b: seq<string>, tail: seq<string>, idx: nat, read: LineReader, head: ParsedSection)
    requires BlockTaken(read, b, head, idx) && SkipsBlank(read, idx + |b|)
    ensures ReadFrom(st, b + [""] + tail, idx, read)
         == ReadFrom(Reading(st.sections + [head], st.errors), tail, idx + |b| + 1, read)
  {
    var st1 := Reading(st.sections + [head], st.errors);
    assert b + [""] + tail == b + ([""] + tail);
    ReadFromAppend(st, b, [""] + tail, idx, read);
    assert ReadFrom(st, b, idx, read) == st1;
    assert ([""] + tail)[1..] == tail;
    assert read(st1, "", idx + |b|) == st1;
  }

  lemma TakesRest(read: LineReader, parse: StepParser, views: seq<BlockView>)
    requires |views| > 1 && Takes(read, parse, views)
    ensures Takes(read, parse, views[1..])
  {
    assert forall j :: 0 <= j < |views| - 1 ==> views[1..][j] == views[j + 1];
  }

  function ViewOf(section: Section): BlockView
    requires SectionText(section).Ok?
  {
    BlockView(Heading(section), StepLinesOf(section), section.title, RepeatOf(section))
  }

  function ViewsOf(plan: seq<Section>): (r: seq<BlockView>)
    requires Renders(plan)
    ensures |r| == |plan| && forall j :: 0 <= j < |plan| ==> r[j] == ViewOf(plan[j])
    decreases |plan|
  {
    if plan == [] then [] else [ViewOf(plan[0])] + ViewsOf(plan[1..])
  }

  lemma {:induction false} LayoutStack(plan: seq<Section>)
    requires plan != [] && Renders(plan)
    ensures Layout(plan) == Stack(ViewsOf(plan))
    decreases |plan|
  {
    var views := ViewsOf(plan);
    assert LinesOf(views[0]) == Block(plan[0]);
    if |plan| > 1 {
      assert views[1..] == ViewsOf(plan[1..]);
      LayoutStack(plan[1..]);
    }
  }

  /** A section with a clean heading whose step lines `parse` takes without error. */
  ghost predicate SectionReadable(section: Section, parse: StepParser)
    requires SectionText(section).Ok?
  {
    && CleanHeading(section)
    && DashLines(StepLinesOf(section))
    && Accepts(parse, StepLinesOf(section))
  }

  ghost predicate Readable(plan: seq<Section>, parse: StepParser)
    requires Renders(plan)
  {
    forall j :: 0 <= j < |plan| ==> SectionReadable(plan[j], parse)
  }

  /** The validator's own reader opens a section for the heading and joins the step lines to it. */
  lemma SectionBlockReads(section: Section, idx: nat, parse: StepParser)
    requires SectionText(section).Ok? && SectionReadable(section, parse)
    ensures BlockReads(ReaderOf(parse), parse, section, idx)
  {
    forall st: Reading
      ensures ReaderOf(parse)(st, Heading(section), idx)
           == Reading(st.sections + [ParsedSection(section.title, RepeatOf(section), [])], st.errors)
    {
      ReadHeadingLine(st, section, idx, parse);
    }
    StepLinesJoin(StepLinesOf(section), idx + 1, parse);
  }

  lemma SectionTaken(section: Section, idx: nat, parse: StepParser)
    requires SectionText(section).Ok? && SectionReadable(section, parse)
    ensures BlockTaken(ReaderOf(parse), LinesOf(ViewOf(section)), SecOf(ViewOf(section), idx, parse), idx)
  {
    SectionBlockReads(section, idx, parse);
    forall st: Reading
      ensures ReadFrom(st, Block(section), idx, ReaderOf(parse)) == Reading(st.sections + [SectionRead(section, idx, parse)], st.errors)
    {
      ReadBlock(st, section, idx, ReaderOf(parse), parse);
    }
  }

  lemma PlanTaken(plan: seq<Section>, parse: StepParser)
    requires Renders(plan) && Readable(plan, parse)
    ensures Takes(ReaderOf(parse), parse, ViewsOf(plan))
  {
    var views := ViewsOf(plan);
    forall j, idx | 0 <= j < |views|
      ensures BlockTaken(ReaderOf(parse), LinesOf(views[j]), SecOf(views[j], idx, parse), idx)
    {
      assert SectionReadable(plan[j], parse);
      SectionTaken(plan[j], idx, parse);
    }
  }

  /** The validator reads the layout of a readable plan as the sections of its views, without error. */
  lemma ReadLayout(plan: seq<Section>, parse: StepParser)
    requires plan != [] && Renders(plan) && Readable(plan, parse)
    ensures ReadLines(Layout(plan), |Layout(plan)|, parse) == Reading(ExpectedOf(ViewsOf(plan), 0, parse), [])
  {
    var lines := Layout(plan);
    ReadLinesThenFrom(lines, 0, parse);
    assert lines[0..] == lines;
    LayoutStack(plan);
    PlanTaken(plan, parse);
    BlankSkipped(parse);
    ReadViews(Reading([], []), ViewsOf(plan), 0, ReaderOf(parse), parse);
    assert [] + ExpectedOf(ViewsOf(plan), 0, parse) == ExpectedOf(ViewsOf(plan), 0, parse);
  }

  /** A step parser that keeps the line it parses as the step's `raw` text. */
  ghost predicate KeepsRaw(parse: StepParser) {
    forall line, n :: parse(line, n).raw == line
  }

  lemma ParserKeepsRaw(pats: Patterns)
    ensures KeepsRaw(StepParserOf(pats))
  {
  }

  lemma SecOfShape(v: BlockView, idx: nat, parse: StepParser)
    requires KeepsRaw(parse)
    ensures var sec := SecOf(v, idx, parse);
      && sec.title == v.title && sec.repeat == v.repeat && |sec.steps| == |v.stepLines|
      && forall k :: 0 <= k < |v.stepLines| ==> sec.steps[k].raw == v.stepLines[k]
  {
    StepsFromEach(v.stepLines, idx + 1, parse);
  }

  /** Each expected section carries its block's title and repeat, and one step per step line, whose raw text is that line. */
  lemma {:induction false} ExpectedOfShape(views: seq<BlockView>, idx: nat, parse: StepParser)
    requires views != [] && KeepsRaw(parse)
    ensures var secs := ExpectedOf(views, idx, parse);
      forall j :: 0 <= j < |views| ==>
        && secs[j].title == views[j].title && secs[j].repeat == views[j].repeat
        && |secs[j].steps| == |views[j].stepLines|
        && forall k :: 0 <= k < |views[j].stepLines| ==> secs[j].steps[k].raw == views[j].stepLines[k]
    decreases |views|
  {
    var secs := ExpectedOf(views, idx, parse);
    SecOfShape(views[0], idx, parse);
    if |views| > 1 {
      var idx' := idx + |LinesOf(views[0])| + 1;
      ExpectedOfShape(views[1..], idx', parse);
      assert forall j :: 1 <= j < |views| ==> secs[j] == ExpectedOf(views[1..], idx', parse)[j - 1] && views[j] == views[1..][j - 1];
    }
  }

  /** A clean plan is readable by the validator's own step parser. */
  lemma CleanPlanReadable(plan: seq<Section>, pats: Patterns)
    requires pats.duration == Duration
    requires Renders(plan) && CleanPlan(plan)
    ensures Readable(plan, StepParserOf(pats))
  {
    forall j | 0 <= j < |plan|
      ensures SectionReadable(plan[j], StepParserOf(pats))
    {
      assert CleanSection(plan[j]);
      SectionStepsAccepted(plan[j], pats);
    }
  }

  /** The text a clean plan builds to splits back into the lines of its layout. */
  lemma BuiltTextLines(plan: seq<Section>, pats: Patterns)
    requires pats.duration == Duration
    requires CleanPlan(plan) && BuildWorkoutText(plan).Ok?
    ensures plan != [] && Renders(plan)
    ensures Split(BuildWorkoutText(plan).value, '\n') == Layout(plan)
  {
    LayoutJoin(plan);
    LayoutOneLine(plan, pats);
    SplitJoin(Layout(plan), '\n');
  }

  /** The first section of a readable layout has a step, so the validator finds one. */
  lemma ExpectedHasSteps(plan: seq<Section>, parse: StepParser)
    requires plan != [] && Renders(plan)
    ensures HasSteps(ExpectedOf(ViewsOf(plan), 0, parse))
  {
    var views := ViewsOf(plan);
    var secs := ExpectedOf(views, 0, parse);
    StepsFromEach(views[0].stepLines, 1, parse);
    assert secs[0].steps != [];
  }

  /** The validator accepts the text a clean plan builds to, with the expected sections. */
  lemma ValidateBuilt(plan: seq<Section>, pats: Patterns)
    requires pats.duration == Duration
    requires CleanPlan(plan) && BuildWorkoutText(plan).Ok?
    ensures plan != [] && Renders(plan)
    ensures Validate(BuildWorkoutText(plan).value, pats)
         == ValidationResult(true, [], Some(ExpectedOf(ViewsOf(plan), 0, StepParserOf(pats))))
  {
    var parse := StepParserOf(pats);
    BuiltTextLines(plan, pats);
    CleanPlanReadable(plan, pats);
    ReadLayout(plan, parse);
    ExpectedHasSteps(plan, parse);
  }

  /** The expected sections of a plan, stated in terms of the plan itself. */
  lemma ExpectedSections(plan: seq<Section>, parse: StepParser)
    requires plan != [] && Renders(plan) && KeepsRaw(parse)
    ensures var secs := ExpectedOf(ViewsOf(plan), 0, parse);
      forall j :: 0 <= j < |plan| ==>
        && secs[j].title == plan[j].title
        && secs[j].repeat == RepeatOf(plan[j])
        && |secs[j].steps| == |plan[j].steps|
        && forall k :: 0 <= k < |plan[j].steps| ==> StepLine(plan[j].title, plan[j].steps[k]) == Ok(secs[j].steps[k].raw)
  {
    var views := ViewsOf(plan);
    ExpectedOfShape(views, 0, parse);
    forall j | 0 <= j < |plan|
      ensures forall k :: 0 <= k < |plan[j].steps| ==> StepLine(plan[j].title, plan[j].steps[k]) == Ok(views[j].stepLines[k])
    {
      StepLinesEach(plan[j].title, plan[j].steps);
    }
  }

  /**
   * `buildIntervalsWorkoutText` then `validateIntervalsWorkoutText`: the text
   * built from a clean plan is valid, and the validator reads back one
   * section per section, with its title, its repeat count and one step per
   * step, whose raw text is the line the builder wrote for it.
   */
  lemma BuildThenValidate(plan: seq<Section>, pats: Patterns)
    requires pats.duration == Duration
    requires CleanPlan(plan) && BuildWorkoutText(plan).Ok?
    ensures var r := Validate(BuildWorkoutText(plan).value, pats);
      && r.valid && r.errors == [] && r.sections.Some? && |r.sections.value| == |plan|
      && forall j :: 0 <= j < |plan| ==>
           && r.sections.value[j].title == plan[j].title
           && r.sections.value[j].repeat == RepeatOf(plan[j])
           && |r.sections.value[j].steps| == |plan[j].steps|
           && forall k :: 0 <= k < |plan[j].steps| ==>
                StepLine(plan[j].title, plan[j].steps[k]) == Ok(r.sections.value[j].steps[k].raw)
  {
    ValidateBuilt(plan, pats);
    ParserKeepsRaw(pats);
    ExpectedSections(plan, StepParserOf(pats));
  }

  // ---------------------------------------------------------------------
  // The duration pattern as written rejects "1h30m"
  // ---------------------------------------------------------------------

  /** A step of one hour and thirty minutes, with nothing else. */
  const HoursMinutes := Step(None, Some(TimeDuration(1, 30, 0)), None, [], None)

  lemma HoursMinutesToken()
    ensures RenderTimeDuration(TimeDuration(1, 30, 0)) == Ok("1h30m")
  {
    assert NatToString(1) == "1";
    assert NatToString(3) == "3";
    assert NatToString(30) == "30";
    assert "1" + "h" + ("30" + "m") + "" == "1h30m";
  }

  lemma SolidFullLine(t: string)
    requires Solid(t)
    ensures FullLine("", t) == t
  {
    assert Join([t], " ") == t;
    CollapseSolid(t);
    TrimAround([], t, []);
    assert [] + t + [] == t;
  }

  /** A step with only a duration: its line is "- " and the duration's token. */
  lemma BareDurationLine(title: string, d: TimeDuration, t: string)
    requires RenderTimeDuration(d) == Ok(t) && Solid(t)
    ensures StepLine(title, Step(None, Some(d), None, [], None)) == Ok("- " + t)
  {
    var step := Step(None, Some(d), None, [], None);
    assert MetricTokens(step) == Ok([t]) by {
      assert [t] + [] == [t];
    }
    assert SegmentTokens([]) == Ok([]);
    assert [t] + [] == [t];
    assert TextPrefix(None, None) == "" by {
      assert Join([], " ") == "";
    }
    assert Join([t], " ") == t;
    SolidFullLine(t);
  }

  lemma HoursMinutesLine(title: string)
    ensures StepLine(title, HoursMinutes) == Ok("- 1h30m")
  {
    assert "- " + "1h30m" == "- 1h30m";
    HoursMinutesToken();
    DurationTokenClean(TimeDuration(1, 30, 0));
    BareDurationLine(title, TimeDuration(1, 30, 0), "1h30m");
  }

  /** No unit of a duration follows the "1" of "1h30m": "h" is glued to the "30". */
  lemma NoUnitAfterHours()
    ensures UnitEnd("1h30m", 1, DurationUnits) == None
  {
    var s := "1h30m";
    forall i | 0 <= i < |DurationUnits|
      ensures !UnitAt(s, 1, DurationUnits[i])
    {
    }
    UnitEndMissing(s, 1, DurationUnits);
  }

  /** Only the "1" of "1h30m" starts a number after a word boundary. */
  lemma HoursMinutesNumbers(q: nat)
    requires q != 0
    ensures NumberAt("1h30m", q) == None
  {
    var s := "1h30m";
    if q == 2 || q == 3 {
      assert IsWordChar(s[q - 1]) && IsWordChar(s[q]);
    }
  }

  lemma HoursMinutesNoDuration()
    ensures AllMatches(DurationAsWritten, "1h30m", 0) == []
  {
    var s := "1h30m";
    forall q | 0 <= q <= |s|
      ensures !MatchesAt(DurationAsWritten, s, q)
    {
      if q == 0 {
        assert DigitEnd(s, 1) == 1;
        NoUnitAfterHours();
      } else {
        HoursMinutesNumbers(q);
      }
    }
    NoMatchAnywhere(DurationAsWritten, s);
  }

  lemma HoursMinutesNoDistance()
    ensures AllMatches(DistanceAt, "1h30m", 0) == []
  {
    var s := "1h30m";
    forall q | 0 <= q <= |s|
      ensures !MatchesAt(DistanceAt, s, q)
    {
      if q == 0 {
        assert DigitEnd(s, 1) == 1;
        forall i | 0 <= i < |DistanceUnits|
          ensures !UnitAt(s, 1, DistanceUnits[i])
        {
        }
        UnitEndMissing(s, 1, DistanceUnits);
      } else {
        HoursMinutesNumbers(q);
      }
    }
    NoMatchAnywhere(DistanceAt, s);
  }

  /** A step text without a comment in which neither pattern finds anything is missing its metric. */
  lemma MissingMetric(f: string, n: nat, pats: Patterns)
    requires Solid(f) && '#' !in f
    requires AllMatches(pats.duration, f, 0) == [] && AllMatches(DistanceAt, f, 0) == []
    ensures MissingMetricError(n) in ParseStepLine("- " + f, n, pats).errors
  {
    StepContent(f);
    NoComment(f);
    StepLineErrors("- " + f, n, pats);
  }

  /** The validator's step error for "- 1h30m" when the duration pattern is the one written. */
  lemma HoursMinutesMissing(n: nat, pats: Patterns)
    requires pats.duration == DurationAsWritten
    ensures MissingMetricError(n) in ParseStepLine("- 1h30m", n, pats).errors
  {
    assert "- " + "1h30m" == "- 1h30m";
    HoursMinutesToken();
    DurationTokenClean(TimeDuration(1, 30, 0));
    HoursMinutesNoDuration();
    HoursMinutesNoDistance();
    MissingMetric("1h30m", n, pats);
  }

  /** A plan of one section with one step: the heading, a line break, the step line. */
  lemma OneStepText(title: string, step: Step, line: string)
    requires StepLine(title, step) == Ok(line)
    ensures BuildWorkoutText([Section(title, None, [step])]) == Ok(title + "\n" + line)
  {
    var section := Section(title, None, [step]);
    assert StepLines(title, [step]) == Ok([line]) by {
      assert [step][1..] == [];
      assert [line] + [] == [line];
    }
    assert Join([title, line], "\n") == title + "\n" + line;
    assert SectionTexts([section]) == Ok([title + "\n" + line]) by {
      assert [section][1..] == [];
      assert [title + "\n" + line] + [] == [title + "\n" + line];
    }
  }

  /** A step line that raises an error leaves the reading with errors. */
  lemma StepErrorStays(st: Reading, line: string, idx: nat, parse: StepParser)
    requires line != [] && line[0] == '-' && Trim(line) == line
    requires parse(line, idx + 1).errors != []
    ensures ReadLine(st, line, idx, parse).errors != []
  {
  }

  lemma TwoLines(first: string, second: string)
    requires '\n' !in first && '\n' !in second
    ensures Split(first + "\n" + second, '\n') == [first, second]
  {
    assert Join([first, second], "\n") == first + "\n" + second;
    SplitJoin([first, second], '\n');
  }

  /** A line, then a step line that raises an error: the reading has errors. */
  lemma SecondLineError(first: string, line: string, parse: StepParser)
    requires line != [] && line[0] == '-' && Trim(line) == line
    requires parse(line, 2).errors != []
    ensures ReadLines([first, line], 2, parse).errors != []
  {
    var lines := [first, line];
    assert ReadLines(lines, 2, parse) == ReadLine(ReadLines(lines, 1, parse), line, 1, parse);
    StepErrorStays(ReadLines(lines, 1, parse), line, 1, parse);
  }

  lemma DashLineUnbroken(f: string)
    requires Solid(f)
    ensures '\n' !in "- " + f
  {
    var line := "- " + f;
    assert forall i :: 2 <= i < |line| ==> line[i] == f[i - 2];
    assert IsWhitespace('\n');
  }

  /** A heading and a step line with an error: the text is invalid. */
  lemma StepErrorInvalid(title: string, f: string, pats: Patterns)
    requires '\n' !in title && Solid(f)
    requires ParseStepLine("- " + f, 2, pats).errors != []
    ensures !Validate(title + "\n" + ("- " + f), pats).valid
  {
    var line := "- " + f;
    DashLineTrimmed(f);
    DashLineUnbroken(f);
    TwoLines(title, line);
    SecondLineError(title, line, StepParserOf(pats));
    ValidateReadsAllLines(title + "\n" + line, pats, [title, line], ReadLines([title, line], 2, StepParserOf(pats)));
  }

  /** The builder writes a step of 1 h 30 min under a heading as the heading, then "- 1h30m". */
  lemma HoursMinutesBuilt(title: string)
    ensures BuildWorkoutText([Section(title, None, [HoursMinutes])]) == Ok(title + "\n" + "- 1h30m")
  {
    HoursMinutesLine(title);
    OneStepText(title, HoursMinutes, "- 1h30m");
  }

  /** The duration pattern as written finds neither a duration nor a distance in "1h30m". */
  lemma HoursMinutesRejected(title: string, pats: Patterns)
    requires pats.duration == DurationAsWritten
    requires '\n' !in title
    ensures !Validate(title + "\n" + "- 1h30m", pats).valid
  {
    assert "- " + "1h30m" == "- 1h30m";
    HoursMinutesToken();
    DurationTokenClean(TimeDuration(1, 30, 0));
    HoursMinutesMissing(2, pats);
    StepErrorInvalid(title, "1h30m", pats);
  }

  // ---------------------------------------------------------------------
  // The builder writes decimal distances, which the validator refuses
  // ---------------------------------------------------------------------

  /** A step of 1.5 km (150 hundredths of a kilometre), with nothing else. */
  const DecimalDistance := Step(None, None, Some(Distance(150, Kilometres)), [], None)

  /** 150 hundredths print as "1.5". */
  lemma OneAndAHalf()
    ensures FormatNumber(150) == "1.5"
  {
    assert Fraction(50) == "5";
    assert NatToString(1) == "1";
    assert FormatNumber(150) == "" + "1" + "." + "5";
    assert "" + "1" + "." + "5" == "1.5";
  }

  lemma DecimalDistanceToken()
    ensures RenderDistance(Distance(150, Kilometres)) == Ok("1.5km")
  {
    OneAndAHalf();
    assert UnitName(Kilometres) == "km";
    assert "1.5" + "km" == "1.5km";
  }

  lemma DecimalTokenSolid()
    ensures Solid("1.5km") && '#' !in "1.5km"
  {
  }

  /** A step with only a distance: its line is "- " and the distance's token. */
  lemma BareDistanceLine(title: string, d: Distance, t: string)
    requires RenderDistance(d) == Ok(t) && Solid(t)
    ensures StepLine(title, Step(None, None, Some(d), [], None)) == Ok("- " + t)
  {
    var step := Step(None, None, Some(d), [], None);
    assert MetricTokens(step) == Ok([t]) by {
      assert [] + [t] == [t];
    }
    assert SegmentTokens([]) == Ok([]);
    assert [t] + [] == [t];
    assert TextPrefix(None, None) == "" by {
      assert Join([], " ") == "";
    }
    assert Join([t], " ") == t;
    SolidFullLine(t);
  }

  /** The builder writes a step of 1.5 km as "- 1.5km". */
  lemma DecimalDistanceLine(title: string)
    ensures StepLine(title, DecimalDistance) == Ok("- 1.5km")
  {
    assert "- " + "1.5km" == "- 1.5km";
    DecimalDistanceToken();
    DecimalTokenSolid();
    BareDistanceLine(title, Distance(150, Kilometres), "1.5km");
  }

  /** "km" is the first duration or distance unit after "1.5" in "1.5km". */
  lemma DecimalUnitAfterFraction()
    ensures UnitEnd("1.5km", 3, DecimalUnits) == Some(5)
  {
    var s := "1.5km";
    UnitTables();
    DistanceTable();
    assert DecimalUnits[15] == "km";
    forall i | 0 <= i < 15
      ensures !UnitAt(s, 3, DecimalUnits[i])
    {
      assert DecimalUnits[i] == DurationUnits[i];
      OtherLetter(s, 3, DecimalUnits[i]);
    }
    assert Lower(s[3..5]) == "km";
    UnitEndFound(s, 3, DecimalUnits, 15);
  }

  /** The decimal-metric pattern matches "1.5km" from its first character. */
  lemma DecimalDistanceMatches()
    ensures AllMatches(DecimalAt, "1.5km", 0) != []
  {
    var s := "1.5km";
    assert NumberAt(s, 0) == Some(1);
    assert DigitEnd(s, 2) == 3;
    DecimalUnitAfterFraction();
    assert DecimalAt(s, 0) == Some(5);
    MatchFound(DecimalAt, s, 0);
  }

  /** The validator's step error for "- 1.5km": a whole-number error. */
  lemma DecimalDistanceError(n: nat, pats: Patterns)
    ensures ParseStepLine("- 1.5km", n, pats).errors != []
  {
    assert "- " + "1.5km" == "- 1.5km";
    DecimalTokenSolid();
    StepContent("1.5km");
    NoComment("1.5km");
    DecimalDistanceMatches();
    StepLineErrors("- 1.5km", n, pats);
  }

  /** The builder writes a step of 1.5 km under a heading as the heading, then "- 1.5km". */
  lemma DecimalDistanceBuilt(title: string)
    ensures BuildWorkoutText([Section(title, None, [DecimalDistance])]) == Ok(title + "\n" + "- 1.5km")
  {
    DecimalDistanceLine(title);
    OneStepText(title, DecimalDistance, "- 1.5km");
  }

  /**
   * With either duration pattern, the validator refuses the text the
   * builder writes for a distance of 1.5 km.
   */
  lemma DecimalDistanceRejected(title: string, pats: Patterns)
    requires '\n' !in title
    ensures !Validate(title + "\n" + "- 1.5km", pats).valid
  {
    assert "- " + "1.5km" == "- 1.5km";
    DecimalTokenSolid();
    DecimalDistanceError(2, pats);
    StepErrorInvalid(title, "1.5km", pats);
  }
}
