/**
 * The large-tool-output filter shared by the session store and the history
 * cleaner: an item that is an object or array holding, at any depth, a
 * string equal to a large tool name is dropped. Each caller passes its own
 * set of large tool names.
 */
module LargeTools {
  import opened Json

  /**
   * `valueContainsLargeToolName`: a string is checked directly; arrays and
   * objects are searched through their values, depth first.
   */
  predicate ValueContainsLargeToolName(v: Json, large: set<string>)
    ensures ValueContainsLargeToolName(v, large) ==> v.JStr? || IsObjectLike(v)
    ensures v.JStr? ==> (ValueContainsLargeToolName(v, large) <==> v.s in large)
    decreases v, 1
  {
    match v
    case JStr(s) => s in large
    case JArr(es) => SomeValueContains(es, large)
    case JObj(fs) => SomeFieldContains(fs, large)
    case _ => false
  }

  predicate SomeValueContains(es: seq<Json>, large: set<string>)
    decreases es, 0
  {
    es != [] && (ValueContainsLargeToolName(es[0], large) || SomeValueContains(es[1..], large))
  }

  predicate SomeFieldContains(fs: seq<(string, Json)>, large: set<string>)
    decreases fs, 0
  {
    if fs == [] then false
    else
      var f := fs[0];
      assert f in fs && f.1 < f;
      ValueContainsLargeToolName(f.1, large) || SomeFieldContains(fs[1..], large)
  }

  /** Every string value (not key) anywhere in the tree. */
  function LeafStrings(v: Json): set<string>
    decreases v, 1
  {
    match v
    case JStr(s) => {s}
    case JArr(es) => ElementLeafStrings(es)
    case JObj(fs) => FieldLeafStrings(fs)
    case _ => {}
  }

  function ElementLeafStrings(es: seq<Json>): set<string>
    decreases es, 0
  {
    if es == [] then {} else LeafStrings(es[0]) + ElementLeafStrings(es[1..])
  }

  function FieldLeafStrings(fs: seq<(string, Json)>): set<string>
    decreases fs, 0
  {
    if fs == [] then {}
    else var f := fs[0]; assert f in fs && f.1 < f; LeafStrings(f.1) + FieldLeafStrings(fs[1..])
  }

  /** The scan finds a large-tool name exactly when one is among the tree's string values. */
  lemma {:induction false} ContainsIffLeaf(v: Json, large: set<string>)
    ensures ValueContainsLargeToolName(v, large) <==> LeafStrings(v) * large != {}
    decreases v, 1
  {
    match v
    case JStr(s) =>
      assert LeafStrings(v) == {s};
      if s in large {
        assert s in {s} * large;
      }
      if {s} * large != {} {
        var x :| x in {s} * large;
      }
    case JArr(es) => ElementsContainIffLeaf(es, large);
    case JObj(fs) => FieldsContainIffLeaf(fs, large);
    case _ =>
  }

  lemma {:induction false} ElementsContainIffLeaf(es: seq<Json>, large: set<string>)
    ensures SomeValueContains(es, large) <==> ElementLeafStrings(es) * large != {}
    decreases es, 0
  {
    if es != [] {
      ContainsIffLeaf(es[0], large);
      ElementsContainIffLeaf(es[1..], large);
    }
  }

  lemma {:induction false} FieldsContainIffLeaf(fs: seq<(string, Json)>, large: set<string>)
    ensures SomeFieldContains(fs, large) <==> FieldLeafStrings(fs) * large != {}
    decreases fs, 0
  {
    if fs != [] {
      var f := fs[0];
      assert f in fs && f.1 < f;
      ContainsIffLeaf(f.1, large);
      FieldsContainIffLeaf(fs[1..], large);
    }
  }

  /** The filter condition: a truthy object or array holding a large-tool name is dropped. */
  predicate IsLargeItem(item: Json, large: set<string>) {
    IsObjectLike(item) && ValueContainsLargeToolName(item, large)
  }

  /** `sanitizeItems` / `dropLargeToolOutputs`: keeps the items that are not large. */
  function DropLargeItems(items: seq<Json>, large: set<string>): (r: seq<Json>)
    ensures |r| <= |items|
    ensures forall i :: 0 <= i < |r| ==> !IsLargeItem(r[i], large)
    ensures forall x :: x in r ==> x in items
  {
    if items == [] then []
    else if IsLargeItem(items[0], large) then DropLargeItems(items[1..], large)
    else [items[0]] + DropLargeItems(items[1..], large)
  }

  /** No stored item is an object or array with a large-tool name in it. */
  predicate Clean(items: seq<Json>, large: set<string>) {
    forall i :: 0 <= i < |items| ==> !IsLargeItem(items[i], large)
  }

  /** Sanitizing splits over concatenation, so survivors keep their relative order. */
  lemma {:induction false} DropLargeAppend(a: seq<Json>, b: seq<Json>, large: set<string>)
    ensures DropLargeItems(a + b, large) == DropLargeItems(a, large) + DropLargeItems(b, large)
  {
    if a != [] {
      assert (a + b)[0] == a[0];
      assert (a + b)[1..] == a[1..] + b;
      DropLargeAppend(a[1..], b, large);
    } else {
      assert a + b == b;
    }
  }

  /** An item survives sanitizing on its own exactly when it is not a large item. */
  lemma DropLargeSingle(x: Json, large: set<string>)
    ensures DropLargeItems([x], large) == if IsLargeItem(x, large) then [] else [x]
  {
  }

  /** A clean list is left as it is; in particular sanitizing is idempotent. */
  lemma {:induction false} DropLargeClean(items: seq<Json>, large: set<string>)
    requires Clean(items, large)
    ensures DropLargeItems(items, large) == items
  {
    if items != [] {
      DropLargeClean(items[1..], large);
    }
  }

  lemma DropLargeIdempotent(items: seq<Json>, large: set<string>)
    ensures DropLargeItems(DropLargeItems(items, large), large) == DropLargeItems(items, large)
  {
    DropLargeClean(DropLargeItems(items, large), large);
  }

  /** Every prefix of a clean list is clean. */
  lemma CleanPrefix(items: seq<Json>, n: nat, large: set<string>)
    requires Clean(items, large) && n <= |items|
    ensures Clean(items[..n], large)
  {
  }
}
