/**
 * Finite JSON values: the conversation items, tool payloads and stored
 * records the backend passes around. Objects keep their keys in insertion
 * order, as JavaScript objects do for the non-numeric keys the backend
 * uses (JavaScript lists integer-like keys first). A finite tree has no cycles, so the
 * visited-set guards of the recursive scanners have nothing to do here.
 * Field lookup takes the first field of a name; `JSON.parse` keeps the
 * last of a repeated key. The two agree on objects whose keys are
 * distinct, which is how `JSON.stringify` writes every record the backend
 * stores.
 */
module Json {
  import opened Wrappers
  import opened Strings

  datatype Json =
    | JNull
    | JBool(b: bool)
    | JNum(n: int)
    | JStr(s: string)
    | JArr(elems: seq<Json>)
    | JObj(fields: seq<(string, Json)>)

  /** `typeof v === "object" && v !== null`: arrays and objects. */
  predicate IsObjectLike(v: Json) {
    v.JArr? || v.JObj?
  }

  /** JavaScript truthiness of a JSON value. */
  predicate Truthy(v: Json) {
    match v
    case JNull => false
    case JBool(b) => b
    case JNum(n) => n != 0
    case JStr(s) => s != ""
    case _ => true
  }

  /** `v[key]` for an object (the first field of that name); None when absent or not an object. */
  function Get(v: Json, key: string): (r: Option<Json>)
    ensures r.Some? ==> v.JObj? && exists i :: 0 <= i < |v.fields| && v.fields[i] == (key, r.value)
  {
    if v.JObj? then FieldLookup(v.fields, key) else None
  }

  function FieldLookup(fields: seq<(string, Json)>, key: string): (r: Option<Json>)
    ensures r.Some? ==> exists i :: 0 <= i < |fields| && fields[i] == (key, r.value)
    ensures r.None? ==> forall i :: 0 <= i < |fields| ==> fields[i].0 != key
  {
    if fields == [] then None
    else if fields[0].0 == key then Some(fields[0].1)
    else FieldLookup(fields[1..], key)
  }

  /** Looking a key up in two field lists laid end to end finds the first list's field first. */
  lemma {:induction false} FieldLookupAppend(a: seq<(string, Json)>, b: seq<(string, Json)>, key: string)
    ensures FieldLookup(a + b, key) == if FieldLookup(a, key).Some? then FieldLookup(a, key) else FieldLookup(b, key)
  {
    if a == [] {
      assert a + b == b;
    } else {
      assert (a + b)[0] == a[0];
      assert (a + b)[1..] == a[1..] + b;
      FieldLookupAppend(a[1..], b, key);
    }
  }

  /** The first field of a name is the one a lookup of that name finds. */
  lemma {:induction false} FieldLookupFirst(fields: seq<(string, Json)>, j: nat)
    requires j < |fields| && forall k :: 0 <= k < j ==> fields[k].0 != fields[j].0
    ensures FieldLookup(fields, fields[j].0) == Some(fields[j].1)
  {
    if j > 0 {
      assert forall k :: 0 <= k < j - 1 ==> fields[1..][k] == fields[k + 1];
      FieldLookupFirst(fields[1..], j - 1);
    }
  }

  /** `v?.[key]` when it is a string. */
  function GetString(v: Json, key: string): Option<string> {
    match Get(v, key)
    case Some(JStr(s)) => Some(s)
    case _ => None
  }

  /** `item?.type === t` */
  predicate HasType(v: Json, t: string) {
    Get(v, "type") == Some(JStr(t))
  }

  /** `String(v)`: arrays join their elements with "," (null becomes ""), objects print as "[object Object]". */
  function JsString(v: Json): string {
    match v
    case JNull => "null"
    case JBool(b) => if b then "true" else "false"
    case JNum(n) => IntToString(n)
    case JStr(s) => s
    case JArr(es) => JoinElements(es)
    case JObj(_) => "[object Object]"
  }

  function JoinElements(es: seq<Json>): string
    decreases es
  {
    if es == [] then ""
    else
      var first := if es[0].JNull? then "" else JsString(es[0]);
      if |es| == 1 then first else first + "," + JoinElements(es[1..])
  }
}
