/**
 * Per-session extra data (lib/session-extra-store.ts): one record
 * `{ data, updatedAt }` per session id under `keyPrefix + sessionId`,
 * written whole by `set` and shallow-merged by `merge`.
 */
module SessionExtraStore {
  import opened Wrappers
  import opened Strings
  import opened Json
  import opened Kv

  const DefaultKeyPrefix: string := "agent-session-extra:"
  const DefaultTtlSeconds: nat := 600

  /** What `get` hands back: a copy of the stored data and the stored `updatedAt`. */
  datatype ExtraRecord = ExtraRecord(data: seq<(string, Json)>, updatedAt: Option<Json>)

  /** The stored form of a record written by `set`. */
  function Payload(data: seq<(string, Json)>, updatedAt: string): Json {
    JObj([("data", JObj(data)), ("updatedAt", JStr(updatedAt))])
  }

  /** Array elements or string characters as the fields "0", "1", … that spreading them gives. */
  function IndexedFields(es: seq<Json>, from: nat): (r: seq<(string, Json)>)
    ensures |r| == |es|
    ensures forall i :: 0 <= i < |es| ==> r[i] == (NatToString(from + i), es[i])
  {
    if es == [] then [] else [(NatToString(from), es[0])] + IndexedFields(es[1..], from + 1)
  }

  function CharsAsJson(s: string): (r: seq<Json>)
    ensures |r| == |s|
    ensures forall i :: 0 <= i < |s| ==> r[i] == JStr([s[i]])
  {
    if s == [] then [] else [JStr([s[0]])] + CharsAsJson(s[1..])
  }

  /** The own enumerable fields `{ ...v }` copies. */
  function SpreadFields(v: Json): seq<(string, Json)> {
    match v
    case JObj(fs) => fs
    case JArr(es) => IndexedFields(es, 0)
    case JStr(s) => IndexedFields(CharsAsJson(s), 0)
    case _ => []
  }

  /** `get(sessionId)` on the store contents: null for an empty id and for a missing or non-object record. */
  function StoredRecord(data: map<string, Entry>, key: string, sessionId: string): (r: Option<ExtraRecord>)
    ensures sessionId == "" ==> r.None?
    ensures key !in data ==> r.None?
    ensures key in data && !IsObjectLike(data[key].value) ==> r.None?
  {
    if sessionId == "" || key !in data then None
    else
      var v := data[key].value;
      if !Truthy(v) || !IsObjectLike(v) then None
      else
        var d := Get(v, "data");
        Some(ExtraRecord(if d.Some? then SpreadFields(d.value) else [], Get(v, "updatedAt")))
  }

  /** A record written by `set` reads back as the data and timestamp written. */
  lemma GetAfterSet(data: map<string, Entry>, key: string, sessionId: string,
                    d: seq<(string, Json)>, updatedAt: string, ttl: Option<nat>)
    requires sessionId != ""
    ensures StoredRecord(data[key := Entry(Payload(d, updatedAt), ttl)], key, sessionId)
      == Some(ExtraRecord(d, Some(JStr(updatedAt))))
  {
    var v := Payload(d, updatedAt);
    assert Get(v, "data") == Some(JObj(d));
    assert |"data"| != |"updatedAt"|;
    assert v.fields[1..] == [("updatedAt", JStr(updatedAt))];
    assert FieldLookup(v.fields[1..], "updatedAt") == Some(JStr(updatedAt));
    assert v.fields[0].0 != "updatedAt";
    assert Get(v, "updatedAt") == Some(JStr(updatedAt));
  }

  /** `obj[k] = v` on an object: replaces the value in place, or appends the key. */
  function Assign(fs: seq<(string, Json)>, k: string, v: Json): (r: seq<(string, Json)>)
    ensures FieldLookup(r, k) == Some(v)
    ensures forall j :: j != k ==> FieldLookup(r, j) == FieldLookup(fs, j)
  {
    if fs == [] then [(k, v)]
    else if fs[0].0 == k then [(k, v)] + fs[1..]
    else [fs[0]] + Assign(fs[1..], k, v)
  }

  /** `{ ...a, ...b }` */
  function SpreadMerge(a: seq<(string, Json)>, b: seq<(string, Json)>): seq<(string, Json)>
    decreases |b|
  {
    if b == [] then a else SpreadMerge(Assign(a, b[0].0, b[0].1), b[1..])
  }

  /** The fields whose key is not in `ks`, in order. */
  function WithoutKeys(fs: seq<(string, Json)>, ks: set<string>): (r: seq<(string, Json)>)
    ensures forall k :: k in ks ==> FieldLookup(r, k).None?
    ensures forall k :: k !in ks ==> FieldLookup(r, k) == FieldLookup(fs, k)
  {
    if fs == [] then []
    else if fs[0].0 in ks then WithoutKeys(fs[1..], ks)
    else [fs[0]] + WithoutKeys(fs[1..], ks)
  }

  predicate DistinctKeys(fs: seq<(string, Json)>) {
    forall i, j :: 0 <= i < j < |fs| ==> fs[i].0 != fs[j].0
  }

  /** After a shallow merge every key of `b` has `b`'s value, and every other key keeps `a`'s. */
  lemma {:induction false} SpreadMergeLookup(a: seq<(string, Json)>, b: seq<(string, Json)>, k: string)
    requires DistinctKeys(b)
    ensures FieldLookup(SpreadMerge(a, b), k) ==
      if FieldLookup(b, k).Some? then FieldLookup(b, k) else FieldLookup(a, k)
    decreases |b|
  {
    if b != [] {
      assert DistinctKeys(b[1..]) by {
        forall i, j | 0 <= i < j < |b[1..]| ensures b[1..][i].0 != b[1..][j].0 {
          assert b[1..][i] == b[i + 1] && b[1..][j] == b[j + 1];
        }
      }
      SpreadMergeLookup(Assign(a, b[0].0, b[0].1), b[1..], k);
      if b[0].0 == k {
        assert FieldLookup(b[1..], k).None? by {
          forall i | 0 <= i < |b[1..]| ensures b[1..][i].0 != k {
            assert b[1..][i] == b[i + 1];
          }
        }
      }
    }
  }

  class SessionExtraStore {
    const redis: KvStore
    const keyPrefix: string
    const ttlSeconds: nat

    /** `options.keyPrefix ?? DEFAULT_KEY_PREFIX`, `options.ttlSeconds ?? 600`. */
    constructor (store: KvStore, prefix: Option<string>, ttl: Option<nat>)
      ensures redis == store
      ensures keyPrefix == prefix.GetOr(DefaultKeyPrefix)
      ensures ttlSeconds == ttl.GetOr(DefaultTtlSeconds)
    {
      redis := store;
      keyPrefix := prefix.GetOr(DefaultKeyPrefix);
      ttlSeconds := ttl.GetOr(DefaultTtlSeconds);
    }

    function BuildKey(sessionId: string): (k: string)
      ensures StartsWith(k, keyPrefix) && k[|keyPrefix|..] == sessionId
    {
      keyPrefix + sessionId
    }

    function Record(sessionId: string): Option<ExtraRecord>
      reads redis
    {
      StoredRecord(redis.data, BuildKey(sessionId), sessionId)
    }

    method GetRecord(sessionId: string) returns (r: Option<ExtraRecord>)
      ensures r == Record(sessionId)
      ensures sessionId == "" ==> r.None?
    {
      if sessionId == "" {
        return None;
      }
      var key := BuildKey(sessionId);
      if key !in redis.data {
        return None;
      }
      var v := redis.data[key].value;
      if !Truthy(v) || !IsObjectLike(v) {
        return None;
      }
      var d := Get(v, "data");
      r := Some(ExtraRecord(if d.Some? then SpreadFields(d.value) else [], Get(v, "updatedAt")));
    }

    /** `set` replaces the whole record and stamps `updatedAt`; a zero TTL stores without expiry. */
    method SetRecord(sessionId: string, data: seq<(string, Json)>, now: string) returns (r: ExtraRecord)
      modifies redis
      ensures r == ExtraRecord(data, Some(JStr(now)))
      ensures redis.data == old(redis.data)[BuildKey(sessionId) :=
        Entry(Payload(data, now), ExpiryOption(Some(ttlSeconds)))]
      ensures sessionId != "" ==> Record(sessionId) == Some(r)
    {
      redis.data := redis.data[BuildKey(sessionId) := Entry(Payload(data, now), ExpiryOption(Some(ttlSeconds)))];
      r := ExtraRecord(data, Some(JStr(now)));
      if sessionId != "" {
        GetAfterSet(old(redis.data), BuildKey(sessionId), sessionId, data, now, ExpiryOption(Some(ttlSeconds)));
      }
    }

    /**
     * `merge`: the existing data overridden key by key, written back whole.
     * `undefinedKeys` are the keys the caller passes with the value
     * `undefined`: spreading sets them to undefined and the JSON encoding of
     * the record then leaves them out.
     */
    method Merge(sessionId: string, data: seq<(string, Json)>, undefinedKeys: set<string>, now: string)
      returns (r: ExtraRecord)
      modifies redis
      ensures var existing := old(Record(sessionId));
        r == ExtraRecord(WithoutKeys(SpreadMerge(if existing.Some? then existing.value.data else [], data), undefinedKeys),
                         Some(JStr(now)))
      ensures redis.data == old(redis.data)[BuildKey(sessionId) :=
        Entry(Payload(r.data, now), ExpiryOption(Some(ttlSeconds)))]
      ensures sessionId != "" ==> Record(sessionId) == Some(r)
    {
      var existing := GetRecord(sessionId);
      var merged := SpreadMerge(if existing.Some? then existing.value.data else [], data);
      r := SetRecord(sessionId, WithoutKeys(merged, undefinedKeys), now);
    }

    method Delete(sessionId: string)
      modifies redis
      ensures redis.data == old(redis.data) - {BuildKey(sessionId)}
      ensures Record(sessionId).None?
    {
      redis.data := redis.data - {BuildKey(sessionId)};
      assert BuildKey(sessionId) !in redis.data;
    }
  }

  /** A merged value wins, a key passed as undefined is gone, any other key survives. */
  lemma MergeOverrides(existing: seq<(string, Json)>, data: seq<(string, Json)>, undefinedKeys: set<string>, k: string)
    requires DistinctKeys(data)
    ensures k in undefinedKeys ==> FieldLookup(WithoutKeys(SpreadMerge(existing, data), undefinedKeys), k).None?
    ensures k !in undefinedKeys && FieldLookup(data, k).Some? ==>
      FieldLookup(WithoutKeys(SpreadMerge(existing, data), undefinedKeys), k) == FieldLookup(data, k)
    ensures k !in undefinedKeys && FieldLookup(data, k).None? ==>
      FieldLookup(WithoutKeys(SpreadMerge(existing, data), undefinedKeys), k) == FieldLookup(existing, k)
  {
    SpreadMergeLookup(existing, data, k);
  }
}
