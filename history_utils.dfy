/**
 * History cleaning before a conversation is replayed to the model
 * (lib/history-utils.ts): large tool outputs and reasoning items are
 * dropped, and every surviving item loses its reasoning keys at any depth
 * and, for messages, its `id`.
 */
module HistoryUtils {
  import opened Wrappers
  import opened Strings
  import opened Json
  import LargeTools

  /** The large-tool names this file filters on. */
  const HistoryLargeTools: set<string> := {
    "list_intervals_activities", "list_intervals_events", "get_intervals_activity",
    "get_intervals_activity_intervals", "list_intervals_chat_messages",
    "list_intervals_wellness_records", "update_intervals_event", "create_intervals_event"
  }

  /**
   * A key is dropped when its lower-cased form contains "reasoning" (which
   * covers the exact "reasoning", "reasoning_id" and "reasoningid" tests).
   * ASCII lower-casing decides this test exactly: the only non-ASCII
   * characters that lower-case to ASCII letters give 'k' and "i̇".
   */
  predicate IsReasoningKey(k: string) {
    Contains(Lower(k), "reasoning")
  }

  /** `dropReasoningItems`: `item?.type !== "reasoning"` */
  function DropReasoningItems(items: seq<Json>): (r: seq<Json>)
    ensures |r| <= |items|
    ensures forall i :: 0 <= i < |r| ==> !HasType(r[i], "reasoning")
    ensures forall x :: x in r ==> x in items
  {
    if items == [] then []
    else if HasType(items[0], "reasoning") then DropReasoningItems(items[1..])
    else [items[0]] + DropReasoningItems(items[1..])
  }

  /** Dropping reasoning items splits over concatenation, so survivors keep their order. */
  lemma {:induction false} DropReasoningAppend(a: seq<Json>, b: seq<Json>)
    ensures DropReasoningItems(a + b) == DropReasoningItems(a) + DropReasoningItems(b)
  {
    if a == [] {
      assert a + b == b;
    } else {
      assert (a + b)[0] == a[0];
      assert (a + b)[1..] == a[1..] + b;
      DropReasoningAppend(a[1..], b);
    }
  }

  /** A list without reasoning items is left as it is. */
  lemma {:induction false} DropReasoningNone(items: seq<Json>)
    requires forall i :: 0 <= i < |items| ==> !HasType(items[i], "reasoning")
    ensures DropReasoningItems(items) == items
  {
    if items != [] {
      DropReasoningNone(items[1..]);
    }
  }

  /** `recursivelyStripReasoningKeys`: arrays are mapped, objects lose reasoning keys, the rest is returned. */
  function StripReasoningKeys(v: Json): (r: Json)
    ensures v.JArr? <==> r.JArr?
    ensures v.JObj? <==> r.JObj?
    ensures v.JArr? ==> |r.elems| == |v.elems|
    ensures v.JObj? ==> |r.fields| <= |v.fields|
    ensures !IsObjectLike(v) ==> r == v
    decreases v, 1
  {
    match v
    case JArr(es) => JArr(StripElements(es))
    case JObj(fs) => JObj(StripFields(fs))
    case _ => v
  }

  function StripElements(es: seq<Json>): (r: seq<Json>)
    ensures |r| == |es|
    decreases es, 0
  {
    if es == [] then [] else [StripReasoningKeys(es[0])] + StripElements(es[1..])
  }

  function StripFields(fs: seq<(string, Json)>): (r: seq<(string, Json)>)
    ensures |r| <= |fs|
    decreases fs, 0
  {
    if fs == [] then []
    else
      var f := fs[0];
      assert f in fs && f.1 < f;
      if IsReasoningKey(f.0) then StripFields(fs[1..])
      else [(f.0, StripReasoningKeys(f.1))] + StripFields(fs[1..])
  }

  /** No object anywhere in the tree has a reasoning key. */
  predicate NoReasoningKeys(v: Json)
    decreases v, 1
  {
    match v
    case JArr(es) => ElementsHaveNoReasoningKeys(es)
    case JObj(fs) => FieldsHaveNoReasoningKeys(fs)
    case _ => true
  }

  predicate ElementsHaveNoReasoningKeys(es: seq<Json>)
    decreases es, 0
  {
    es == [] || (NoReasoningKeys(es[0]) && ElementsHaveNoReasoningKeys(es[1..]))
  }

  predicate FieldsHaveNoReasoningKeys(fs: seq<(string, Json)>)
    decreases fs, 0
  {
    if fs == [] then true
    else
      var f := fs[0];
      assert f in fs && f.1 < f;
      !IsReasoningKey(f.0) && NoReasoningKeys(f.1) && FieldsHaveNoReasoningKeys(fs[1..])
  }

  /** After stripping, no reasoning key is left at any depth. */
  lemma {:induction false} StripLeavesNoReasoningKeys(v: Json)
    ensures NoReasoningKeys(StripReasoningKeys(v))
    decreases v, 1
  {
    match v
    case JArr(es) => StripElementsLeaveNone(es);
    case JObj(fs) => StripFieldsLeaveNone(fs);
    case _ =>
  }

  lemma {:induction false} StripElementsLeaveNone(es: seq<Json>)
    ensures ElementsHaveNoReasoningKeys(StripElements(es))
    decreases es, 0
  {
    if es != [] {
      StripLeavesNoReasoningKeys(es[0]);
      StripElementsLeaveNone(es[1..]);
    }
  }

  lemma {:induction false} StripFieldsLeaveNone(fs: seq<(string, Json)>)
    ensures FieldsHaveNoReasoningKeys(StripFields(fs))
    decreases fs, 0
  {
    if fs != [] {
      var f := fs[0];
      assert f in fs && f.1 < f;
      StripLeavesNoReasoningKeys(f.1);
      StripFieldsLeaveNone(fs[1..]);
    }
  }

  /** A tree without reasoning keys is left unchanged; so stripping is idempotent. */
  lemma {:induction false} StripIdentity(v: Json)
    requires NoReasoningKeys(v)
    ensures StripReasoningKeys(v) == v
    decreases v, 1
  {
    match v
    case JArr(es) => StripElementsIdentity(es);
    case JObj(fs) => StripFieldsIdentity(fs);
    case _ =>
  }

  lemma {:induction false} StripElementsIdentity(es: seq<Json>)
    requires ElementsHaveNoReasoningKeys(es)
    ensures StripElements(es) == es
    decreases es, 0
  {
    if es != [] {
      StripIdentity(es[0]);
      StripElementsIdentity(es[1..]);
    }
  }

  lemma {:induction false} StripFieldsIdentity(fs: seq<(string, Json)>)
    requires FieldsHaveNoReasoningKeys(fs)
    ensures StripFields(fs) == fs
    decreases fs, 0
  {
    if fs != [] {
      var f := fs[0];
      assert f in fs && f.1 < f;
      StripIdentity(f.1);
      StripFieldsIdentity(fs[1..]);
    }
  }

  lemma StripIdempotent(v: Json)
    ensures StripReasoningKeys(StripReasoningKeys(v)) == StripReasoningKeys(v)
  {
    StripLeavesNoReasoningKeys(v);
    StripIdentity(StripReasoningKeys(v));
  }

  /** Stripping only removes: it never introduces a string value the input did not hold. */
  lemma {:induction false} StripKeepsLeaves(v: Json)
    ensures LargeTools.LeafStrings(StripReasoningKeys(v)) <= LargeTools.LeafStrings(v)
    decreases v, 1
  {
    match v
    case JArr(es) => StripElementsKeepLeaves(es);
    case JObj(fs) => StripFieldsKeepLeaves(fs);
    case _ =>
  }

  lemma {:induction false} StripElementsKeepLeaves(es: seq<Json>)
    ensures LargeTools.ElementLeafStrings(StripElements(es)) <= LargeTools.ElementLeafStrings(es)
    decreases es, 0
  {
    if es != [] {
      StripKeepsLeaves(es[0]);
      StripElementsKeepLeaves(es[1..]);
      assert StripElements(es)[1..] == StripElements(es[1..]);
    }
  }

  lemma {:induction false} StripFieldsKeepLeaves(fs: seq<(string, Json)>)
    ensures LargeTools.FieldLeafStrings(StripFields(fs)) <= LargeTools.FieldLeafStrings(fs)
    decreases fs, 0
  {
    if fs != [] {
      var f := fs[0];
      assert f in fs && f.1 < f;
      StripKeepsLeaves(f.1);
      StripFieldsKeepLeaves(fs[1..]);
      if !IsReasoningKey(f.0) {
        assert StripFields(fs)[1..] == StripFields(fs[1..]);
      }
    }
  }

  /** A top-level key that is not a reasoning key keeps its value, stripped; a reasoning key is gone. */
  lemma {:induction false} StripFieldsLookup(fs: seq<(string, Json)>, k: string)
    ensures IsReasoningKey(k) ==> FieldLookup(StripFields(fs), k).None?
    ensures !IsReasoningKey(k) ==>
      FieldLookup(StripFields(fs), k) ==
        (if FieldLookup(fs, k).Some? then Some(StripReasoningKeys(FieldLookup(fs, k).value)) else None)
  {
    if fs != [] {
      StripFieldsLookup(fs[1..], k);
    }
  }

  /** Every field named `k` removed; the others in order. */
  function RemoveKey(fs: seq<(string, Json)>, k: string): (r: seq<(string, Json)>)
    ensures |r| <= |fs|
    ensures FieldLookup(r, k).None?
    ensures forall j :: j != k ==> FieldLookup(r, j) == FieldLookup(fs, j)
    ensures FieldsHaveNoReasoningKeys(fs) ==> FieldsHaveNoReasoningKeys(r)
  {
    if fs == [] then []
    else if fs[0].0 == k then RemoveKey(fs[1..], k)
    else [fs[0]] + RemoveKey(fs[1..], k)
  }

  lemma {:induction false} RemoveAbsentKey(fs: seq<(string, Json)>, k: string)
    requires FieldLookup(fs, k).None?
    ensures RemoveKey(fs, k) == fs
  {
    if fs != [] {
      RemoveAbsentKey(fs[1..], k);
    }
  }

  /** `stripReasoningReferences`: strip reasoning keys, then drop a message's `id`. */
  function StripReasoningReferences(item: Json): (r: Json)
    ensures NoReasoningKeys(r)
    ensures HasType(r, "message") <==> HasType(item, "message")
    ensures HasType(r, "reasoning") <==> HasType(item, "reasoning")
    ensures HasType(item, "message") ==> Get(r, "id").None?
    ensures !HasType(item, "message") ==> r == StripReasoningKeys(item)
    ensures !HasType(item, "message") && item.JObj? && Get(item, "id").Some? ==>
      Get(r, "id") == Some(StripReasoningKeys(Get(item, "id").value))
  {
    StripLeavesNoReasoningKeys(item);
    StripKeepsTypeAndId(item);
    var cloned := StripReasoningKeys(item);
    if HasType(cloned, "message") then JObj(RemoveKey(cloned.fields, "id")) else cloned
  }

  /** Neither "type" nor "id" is a reasoning key, so stripping keeps both. */
  lemma StripKeepsTypeAndId(item: Json)
    ensures item.JObj? ==> (Get(StripReasoningKeys(item), "type") ==
      if Get(item, "type").Some? then Some(StripReasoningKeys(Get(item, "type").value)) else None)
    ensures item.JObj? ==> (Get(StripReasoningKeys(item), "id") ==
      if Get(item, "id").Some? then Some(StripReasoningKeys(Get(item, "id").value)) else None)
  {
    if item.JObj? {
      assert !IsReasoningKey("type") by { assert Lower("type") == "type"; }
      assert !IsReasoningKey("id") by { assert Lower("id") == "id"; }
      StripFieldsLookup(item.fields, "type");
      StripFieldsLookup(item.fields, "id");
    }
  }

  lemma StripReasoningReferencesIdempotent(item: Json)
    ensures StripReasoningReferences(StripReasoningReferences(item)) == StripReasoningReferences(item)
  {
    var r := StripReasoningReferences(item);
    StripIdentity(r);
    if HasType(item, "message") {
      RemoveAbsentKey(r.fields, "id");
    }
  }

  /** The items that survive both filters. */
  function StripAll(items: seq<Json>): (r: seq<Json>)
    ensures |r| == |items|
    ensures forall i :: 0 <= i < |items| ==> r[i] == StripReasoningReferences(items[i])
  {
    if items == [] then [] else [StripReasoningReferences(items[0])] + StripAll(items[1..])
  }

  /** `cleanHistoryItems` */
  function CleanHistoryItems(items: seq<Json>): (r: seq<Json>)
    ensures |r| <= |items|
  {
    StripAll(DropReasoningItems(LargeTools.DropLargeItems(items, HistoryLargeTools)))
  }

  /** A cleaned item is not large, not a reasoning item, has no reasoning keys, and a message has no `id`. */
  predicate CleanItem(x: Json) {
    && !LargeTools.IsLargeItem(x, HistoryLargeTools)
    && !HasType(x, "reasoning")
    && NoReasoningKeys(x)
    && (HasType(x, "message") ==> Get(x, "id").None?)
  }

  /** Stripping an item that is not large leaves it not large. */
  lemma StripNotLarge(x: Json)
    requires !LargeTools.IsLargeItem(x, HistoryLargeTools)
    ensures !LargeTools.IsLargeItem(StripReasoningReferences(x), HistoryLargeTools)
  {
    var s := StripReasoningKeys(x);
    StripKeepsLeaves(x);
    LargeTools.ContainsIffLeaf(x, HistoryLargeTools);
    LargeTools.ContainsIffLeaf(s, HistoryLargeTools);
    if HasType(x, "message") {
      var r := StripReasoningReferences(x);
      LargeTools.ContainsIffLeaf(r, HistoryLargeTools);
      RemoveKeepsLeaves(s.fields, "id");
    }
  }

  lemma {:induction false} RemoveKeepsLeaves(fs: seq<(string, Json)>, k: string)
    ensures LargeTools.FieldLeafStrings(RemoveKey(fs, k)) <= LargeTools.FieldLeafStrings(fs)
  {
    if fs != [] {
      RemoveKeepsLeaves(fs[1..], k);
      if fs[0].0 != k {
        assert RemoveKey(fs, k)[1..] == RemoveKey(fs[1..], k);
      }
    }
  }

  /** Every item `cleanHistoryItems` returns is clean. */
  lemma CleanHistoryItemsClean(items: seq<Json>)
    ensures forall i :: 0 <= i < |CleanHistoryItems(items)| ==> CleanItem(CleanHistoryItems(items)[i])
  {
    var kept := DropReasoningItems(LargeTools.DropLargeItems(items, HistoryLargeTools));
    forall i | 0 <= i < |kept|
      ensures CleanItem(StripReasoningReferences(kept[i]))
    {
      assert kept[i] in LargeTools.DropLargeItems(items, HistoryLargeTools);
      StripNotLarge(kept[i]);
    }
  }

  /** Cleaning splits over concatenation: each item is kept (and stripped) or dropped on its own. */
  lemma CleanHistoryAppend(a: seq<Json>, b: seq<Json>)
    ensures CleanHistoryItems(a + b) == CleanHistoryItems(a) + CleanHistoryItems(b)
  {
    LargeTools.DropLargeAppend(a, b, HistoryLargeTools);
    DropReasoningAppend(LargeTools.DropLargeItems(a, HistoryLargeTools), LargeTools.DropLargeItems(b, HistoryLargeTools));
    var x := DropReasoningItems(LargeTools.DropLargeItems(a, HistoryLargeTools));
    var y := DropReasoningItems(LargeTools.DropLargeItems(b, HistoryLargeTools));
    assert StripAll(x + y) == StripAll(x) + StripAll(y);
  }

  /** One item on its own: dropped when large or a reasoning item, otherwise stripped. */
  lemma CleanHistorySingle(x: Json)
    ensures CleanHistoryItems([x]) ==
      if LargeTools.IsLargeItem(x, HistoryLargeTools) || HasType(x, "reasoning") then []
      else [StripReasoningReferences(x)]
  {
  }

  /** Cleaning an already cleaned history changes nothing. */
  lemma CleanHistoryIdempotent(items: seq<Json>)
    ensures CleanHistoryItems(CleanHistoryItems(items)) == CleanHistoryItems(items)
  {
    var r := CleanHistoryItems(items);
    CleanHistoryItemsClean(items);
    LargeTools.DropLargeClean(r, HistoryLargeTools);
    DropReasoningNone(r);
    var kept := DropReasoningItems(LargeTools.DropLargeItems(items, HistoryLargeTools));
    forall i | 0 <= i < |r|
      ensures StripReasoningReferences(r[i]) == r[i]
    {
      StripReasoningReferencesIdempotent(kept[i]);
    }
  }
}
