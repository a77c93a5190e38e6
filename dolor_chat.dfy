/**
 * The agent entry points of lib/dolor-chat.ts that carry logic: the session
 * input callback that drops orphaned reasoning items, and the Intervals.icu
 * system instruction.
 */
module DolorChat {
  import opened Wrappers
  import opened Strings
  import opened Json
  import HistoryUtils

  /** The filter of `appendHistory`: a reasoning item stays only when a message follows it. */
  predicate KeepAt(h: seq<Json>, i: nat)
    requires i < |h|
  {
    !HasType(h[i], "reasoning") || (i < |h| - 1 && HasType(h[i + 1], "message"))
  }

  /** The history items from index `i` on that the filter keeps, in order. */
  function KeptFrom(h: seq<Json>, i: nat): (r: seq<Json>)
    requires i <= |h|
    ensures |r| <= |h| - i
    decreases |h| - i
  {
    if i == |h| then []
    else if KeepAt(h, i) then [h[i]] + KeptFrom(h, i + 1)
    else KeptFrom(h, i + 1)
  }

  /** `appendHistory(history, newItems)` */
  function AppendHistory(history: seq<Json>, newItems: seq<Json>): (r: seq<Json>)
    ensures |newItems| <= |r| <= |history| + |newItems|
    ensures r[|r| - |newItems|..] == newItems
  {
    KeptFrom(history, 0) + newItems
  }

  /** Every reasoning item is directly followed by a message. */
  predicate NoOrphanReasoning(s: seq<Json>) {
    forall j :: 0 <= j < |s| && HasType(s[j], "reasoning") ==> j + 1 < |s| && HasType(s[j + 1], "message")
  }

  lemma MessageIsNotReasoning(x: Json)
    requires HasType(x, "message")
    ensures !HasType(x, "reasoning")
  {
  }

  /** The kept part never ends in, or contains, a reasoning item without its message. */
  lemma {:induction false} KeptHasNoOrphans(h: seq<Json>, i: nat)
    requires i <= |h|
    ensures NoOrphanReasoning(KeptFrom(h, i))
    decreases |h| - i
  {
    if i < |h| {
      KeptHasNoOrphans(h, i + 1);
      if KeepAt(h, i) && HasType(h[i], "reasoning") {
        MessageIsNotReasoning(h[i + 1]);
        assert KeepAt(h, i + 1);
        var r := KeptFrom(h, i);
        assert r == [h[i]] + ([h[i + 1]] + KeptFrom(h, i + 2));
        assert r[1] == h[i + 1];
      }
    }
  }

  /** A history without orphans passes the filter unchanged. */
  lemma {:induction false} KeptIdentity(h: seq<Json>, i: nat)
    requires i <= |h| && NoOrphanReasoning(h)
    ensures KeptFrom(h, i) == h[i..]
    decreases |h| - i
  {
    if i < |h| {
      KeptIdentity(h, i + 1);
      assert KeepAt(h, i);
      assert h[i..] == [h[i]] + h[i + 1..];
    }
  }

  /** Filtering a history twice gives the same as filtering it once. */
  lemma KeptIdempotent(h: seq<Json>)
    ensures KeptFrom(KeptFrom(h, 0), 0) == KeptFrom(h, 0)
  {
    KeptHasNoOrphans(h, 0);
    KeptIdentity(KeptFrom(h, 0), 0);
  }

  /** Only reasoning items are ever dropped: the non-reasoning items all survive, in order. */
  lemma {:induction false} KeptKeepsNonReasoning(h: seq<Json>, i: nat)
    requires i <= |h|
    ensures HistoryUtils.DropReasoningItems(KeptFrom(h, i)) == HistoryUtils.DropReasoningItems(h[i..])
    decreases |h| - i
  {
    if i < |h| {
      KeptKeepsNonReasoning(h, i + 1);
      assert h[i..] == [h[i]] + h[i + 1..];
      HistoryUtils.DropReasoningAppend([h[i]], h[i + 1..]);
      if KeepAt(h, i) {
        HistoryUtils.DropReasoningAppend([h[i]], KeptFrom(h, i + 1));
      }
    }
  }

  /** `a` directly followed by `b` occurs somewhere in `s`. */
  predicate Adjacent(s: seq<Json>, a: Json, b: Json) {
    exists k :: 0 <= k < |s| - 1 && s[k] == a && s[k + 1] == b
  }

  /** Every reasoning item of `h` that a message follows appears in `kept`, still followed by it. */
  predicate KeepsAnsweredReasoning(h: seq<Json>, kept: seq<Json>) {
    forall j :: 0 <= j < |h| - 1 && HasType(h[j], "reasoning") && HasType(h[j + 1], "message") ==>
      Adjacent(kept, h[j], h[j + 1])
  }

  /** A reasoning item directly followed by a message survives, together with that message. */
  lemma {:induction false} KeptKeepsPair(h: seq<Json>, i: nat, j: nat)
    requires i <= j && j + 1 < |h| && HasType(h[j], "reasoning") && HasType(h[j + 1], "message")
    ensures Adjacent(KeptFrom(h, i), h[j], h[j + 1])
    decreases j - i
  {
    if i == j {
      MessageIsNotReasoning(h[j + 1]);
      assert KeepAt(h, j) && KeepAt(h, j + 1);
      assert KeptFrom(h, i) == [h[j]] + ([h[j + 1]] + KeptFrom(h, j + 2));
      assert KeptFrom(h, i)[0] == h[j] && KeptFrom(h, i)[1] == h[j + 1];
    } else {
      KeptKeepsPair(h, i + 1, j);
      var rest := KeptFrom(h, i + 1);
      var k :| 0 <= k < |rest| - 1 && rest[k] == h[j] && rest[k + 1] == h[j + 1];
      if KeepAt(h, i) {
        assert KeptFrom(h, i) == [h[i]] + rest;
        assert KeptFrom(h, i)[k + 1] == h[j] && KeptFrom(h, i)[k + 2] == h[j + 1];
      }
    }
  }

  /** The whole callback: the new items follow the filtered history, which has no orphans, loses only reasoning and keeps every reasoning item that a message follows. */
  lemma AppendHistorySpec(history: seq<Json>, newItems: seq<Json>)
    ensures NoOrphanReasoning(AppendHistory(history, newItems)[..|AppendHistory(history, newItems)| - |newItems|])
    ensures HistoryUtils.DropReasoningItems(AppendHistory(history, newItems)[..|AppendHistory(history, newItems)| - |newItems|])
      == HistoryUtils.DropReasoningItems(history)
    ensures |history| > 0 && HasType(history[|history| - 1], "reasoning") ==>
      |AppendHistory(history, newItems)| - |newItems| < |history|
    ensures KeepsAnsweredReasoning(history, AppendHistory(history, newItems)[..|AppendHistory(history, newItems)| - |newItems|])
  {
    var r := AppendHistory(history, newItems);
    assert r[..|r| - |newItems|] == KeptFrom(history, 0);
    KeptHasNoOrphans(history, 0);
    KeptKeepsNonReasoning(history, 0);
    assert history[0..] == history;
    if |history| > 0 && HasType(history[|history| - 1], "reasoning") {
      KeptDropsLast(history, 0);
    }
    forall j | 0 <= j < |history| - 1 && HasType(history[j], "reasoning") && HasType(history[j + 1], "message")
      ensures Adjacent(KeptFrom(history, 0), history[j], history[j + 1])
    {
      KeptKeepsPair(history, 0, j);
    }
  }

  /** A trailing reasoning item is always dropped. */
  lemma {:induction false} KeptDropsLast(h: seq<Json>, i: nat)
    requires i < |h| && HasType(h[|h| - 1], "reasoning")
    ensures |KeptFrom(h, i)| < |h| - i
    decreases |h| - i
  {
    if i < |h| - 1 {
      KeptDropsLast(h, i + 1);
    }
  }

  const InstructionWithoutAthlete: string :=
    "Ask the athlete for their Intervals.icu athlete ID and desired oldest/newest dates before calling list_intervals_activities."

  const InstructionHead: string := "You can query Intervals.icu for athlete "
  const InstructionMiddle: string := ". When calling list_intervals_activities always pass athleteId \""
  const InstructionTail: string := "\" along with explicit oldest/newest dates provided by the athlete."

  function InstructionFor(id: string): string {
    InstructionHead + id + InstructionMiddle + id + InstructionTail
  }

  /** `buildIntervalsInstruction(athleteId?)`: an absent or empty id asks the athlete for it. */
  function BuildIntervalsInstruction(athleteId: Option<string>): (r: string)
    ensures athleteId.Some? && athleteId.value != "" ==> r == InstructionFor(athleteId.value)
    ensures athleteId.None? || athleteId.value == "" ==> r == InstructionWithoutAthlete
  {
    if athleteId.Some? && athleteId.value != "" then InstructionFor(athleteId.value)
    else InstructionWithoutAthlete
  }

  /**
   * The same function applied to an arbitrary JavaScript value, as it runs
   * when a caller passes something that is not a string: truthiness decides
   * the branch and `String(value)` is interpolated.
   */
  function BuildIntervalsInstructionFromValue(athleteId: Option<Json>): (r: string)
    ensures athleteId.Some? && athleteId.value.JStr? ==>
      r == BuildIntervalsInstruction(Some(athleteId.value.s))
    ensures athleteId.None? || athleteId.value.JNull? ==> r == InstructionWithoutAthlete
  {
    if athleteId.Some? && Truthy(athleteId.value) then InstructionFor(JsString(athleteId.value))
    else InstructionWithoutAthlete
  }

  /** The instruction names the athlete: the id appears quoted, ready to pass to the tool. */
  lemma InstructionQuotesId(id: string)
    requires id != ""
    ensures StartsWith(BuildIntervalsInstruction(Some(id)), InstructionHead + id)
    ensures EndsWith(BuildIntervalsInstruction(Some(id)), "\"" + id + InstructionTail)
  {
    assert InstructionMiddle[|InstructionMiddle| - 1] == '"';
    QuotedTwice(InstructionHead, id, InstructionMiddle, InstructionTail);
  }

  /** `head + id + middle + id + tail` starts with `head + id` and, when `middle` closes on a quote, ends with the quoted id. */
  lemma QuotedTwice(head: string, id: string, middle: string, tail: string)
    requires middle != [] && middle[|middle| - 1] == '"'
    ensures StartsWith(head + id + middle + id + tail, head + id)
    ensures EndsWith(head + id + middle + id + tail, "\"" + id + tail)
  {
    var r := head + id + middle + id + tail;
    assert r == (head + id) + (middle + id + tail);
    assert r == (head + id + middle[..|middle| - 1]) + ("\"" + id + tail);
  }

  /** Different athlete ids give different instructions, and none equals the fallback. */
  lemma InstructionInjective(a: string, b: string)
    requires a != "" && b != "" && a != b
    ensures BuildIntervalsInstruction(Some(a)) != BuildIntervalsInstruction(Some(b))
    ensures BuildIntervalsInstruction(Some(a)) != InstructionWithoutAthlete
  {
    assert |InstructionWithoutAthlete| < |InstructionHead| + |InstructionMiddle| + |InstructionTail|;
    FramedInjective(InstructionHead, InstructionMiddle, InstructionTail, a, b);
  }

  /** Framing an id twice between fixed pieces keeps different ids apart. */
  lemma FramedInjective(head: string, middle: string, tail: string, a: string, b: string)
    requires a != b
    ensures head + a + middle + a + tail != head + b + middle + b + tail
  {
    var ra, rb := head + a + middle + a + tail, head + b + middle + b + tail;
    if |a| == |b| {
      assert ra[|head|..|head| + |a|] == a;
      assert rb[|head|..|head| + |b|] == b;
    }
  }
}
