/**
 * The Redis-backed conversation session (lib/upstash-session.ts): one item
 * list per session id under `prefix + sessionId`, sanitized of large tool
 * payloads on every read and on every `addItems`.
 */
module UpstashSession {
  import opened Wrappers
  import opened Json
  import opened Kv
  import LargeTools

  const DefaultKeyPrefix: string := "agent-session:"

  /** The large-tool names this file filters on. */
  const LargeIntervalTools: set<string> :=
    {"list_intervals_activities", "get_intervals_activity_intervals", "list_intervals_chat_messages"}

  /** The items `readItems` returns: the stored array, or [] for a missing or non-array value. */
  function StoredItems(data: map<string, Entry>, key: string): (r: seq<Json>)
    ensures key !in data ==> r == []
    ensures key in data && !data[key].value.JArr? ==> r == []
  {
    if key in data && data[key].value.JArr? then data[key].value.elems else []
  }

  /** What `getItems(limit)` returns for the stored list `items`. */
  function ItemsWindow(items: seq<Json>, limit: Option<int>, large: set<string>): (r: seq<Json>)
    ensures forall x :: x in r ==> x in items && !LargeTools.IsLargeItem(x, large)
    ensures limit.Some? && limit.value <= 0 ==> r == []
  {
    if limit.None? then LargeTools.DropLargeItems(items, large)
    else if limit.value <= 0 then []
    else
      var start := if |items| - limit.value > 0 then |items| - limit.value else 0;
      LargeTools.DropLargeItems(items[start..], large)
  }

  /** `getItems(limit)` returns at most `limit` items, all clean, drawn from the last `limit` stored ones. */
  lemma ItemsWindowBounds(items: seq<Json>, limit: Option<int>, large: set<string>)
    ensures limit.Some? ==> |ItemsWindow(items, limit, large)| <= if limit.value <= 0 then 0 else limit.value
    ensures LargeTools.Clean(ItemsWindow(items, limit, large), large)
    ensures limit.Some? && limit.value > 0 && LargeTools.Clean(items, large) ==>
      ItemsWindow(items, limit, large) == items[if |items| > limit.value then |items| - limit.value else 0..]
  {
    if limit.Some? && limit.value > 0 {
      var start := if |items| - limit.value > 0 then |items| - limit.value else 0;
      if LargeTools.Clean(items, large) {
        LargeTools.DropLargeClean(items[start..], large);
      }
    }
  }

  /** Distinct session ids under one prefix never share a record. */
  lemma KeysDistinct(prefix: string, a: string, b: string)
    requires a != b
    ensures prefix + a != prefix + b
  {
    assert (prefix + a)[|prefix|..] == a;
    assert (prefix + b)[|prefix|..] == b;
  }

  class UpstashSession {
    const redis: KvStore
    const sessionId: string
    const key: string
    const ttlSeconds: Option<nat>
    const large: set<string>

    /** The session's items as `readItems` sees them. */
    function Items(): seq<Json>
      reads redis
    {
      StoredItems(redis.data, key)
    }

    /** The record, when present, is a non-empty array of clean items. */
    predicate Valid()
      reads redis
    {
      key in redis.data ==> redis.data[key].value.JArr? && Items() != [] && LargeTools.Clean(Items(), large)
    }

    /** `sessionId ?? randomUUID()`; the generated id is a parameter. */
    constructor (sessionIdOption: Option<string>, generatedId: string, store: KvStore,
                 keyPrefix: Option<string>, ttl: Option<nat>)
      ensures sessionId == sessionIdOption.GetOr(generatedId)
      ensures key == keyPrefix.GetOr(DefaultKeyPrefix) + sessionId
      ensures redis == store && ttlSeconds == ttl && large == LargeIntervalTools
    {
      sessionId := sessionIdOption.GetOr(generatedId);
      redis := store;
      key := keyPrefix.GetOr(DefaultKeyPrefix) + sessionIdOption.GetOr(generatedId);
      ttlSeconds := ttl;
      large := LargeIntervalTools;
    }

    method GetSessionId() returns (id: string)
      ensures id == sessionId
    {
      id := sessionId;
    }

    method ReadItems() returns (items: seq<Json>)
      ensures items == Items()
    {
      var stored := if key in redis.data then Some(redis.data[key].value) else None;
      if stored.Some? && stored.value.JArr? {
        items := stored.value.elems;
      } else {
        items := [];
      }
    }

    /** Writing an empty list deletes the key instead of storing []. */
    method WriteItems(items: seq<Json>)
      modifies redis
      ensures items == [] ==> redis.data == old(redis.data) - {key}
      ensures items != [] ==> redis.data == old(redis.data)[key := Entry(JArr(items), ExpiryOption(ttlSeconds))]
      ensures Items() == items
    {
      if items == [] {
        redis.data := redis.data - {key};
      } else {
        redis.data := redis.data[key := Entry(JArr(items), ExpiryOption(ttlSeconds))];
      }
    }

    method GetItems(limit: Option<int>) returns (r: seq<Json>)
      ensures r == ItemsWindow(Items(), limit, large)
      ensures limit.Some? ==> |r| <= if limit.value <= 0 then 0 else limit.value
      ensures LargeTools.Clean(r, large)
    {
      ItemsWindowBounds(Items(), limit, large);
      var items := ReadItems();
      if limit.None? {
        r := LargeTools.DropLargeItems(items, large);
        return;
      }
      if limit.value <= 0 {
        r := [];
        return;
      }
      var start := if |items| - limit.value > 0 then |items| - limit.value else 0;
      r := LargeTools.DropLargeItems(items[start..], large);
    }

    /** `addItems`: a read-modify-write that sanitizes the whole merged list; [] touches nothing. */
    method AddItems(items: seq<Json>)
      modifies redis
      ensures items == [] ==> redis.data == old(redis.data)
      ensures items != [] ==> Items() == LargeTools.DropLargeItems(old(Items()) + items, large)
      ensures redis.data - {key} == old(redis.data) - {key}
      ensures items != [] ==> Valid()
      ensures items == [] && old(Valid()) ==> Valid()
    {
      if items == [] {
        return;
      }
      var existing := ReadItems();
      var merged := existing + items;
      var sanitized := LargeTools.DropLargeItems(merged, large);
      WriteItems(sanitized);
    }

    /**
     * `popItem`: nothing is written when the list is empty or its last item is
     * falsy (`if (!popped) return undefined`); otherwise the prefix is stored.
     */
    method PopItem() returns (r: Option<Json>)
      modifies redis
      ensures old(Items()) == [] ==> r.None? && redis.data == old(redis.data)
      ensures old(Items()) != [] && !Truthy(old(Items())[|old(Items())| - 1]) ==>
        r.None? && redis.data == old(redis.data)
      ensures old(Items()) != [] && Truthy(old(Items())[|old(Items())| - 1]) ==>
        r == Some(old(Items())[|old(Items())| - 1]) && Items() == old(Items())[..|old(Items())| - 1]
      ensures redis.data - {key} == old(redis.data) - {key}
      ensures old(Valid()) ==> Valid()
    {
      ghost var whole := Items();
      var items := ReadItems();
      if items == [] {
        return None;
      }
      var popped := items[|items| - 1];
      items := items[..|items| - 1];
      if !Truthy(popped) {
        return None;
      }
      if LargeTools.Clean(whole, large) {
        LargeTools.CleanPrefix(whole, |items|, large);
      }
      WriteItems(items);
      r := Some(popped);
    }

    /** `clearSession` deletes the key; a later read gives []. */
    method ClearSession()
      modifies redis
      ensures redis.data == old(redis.data) - {key}
      ensures Items() == [] && Valid()
    {
      redis.data := redis.data - {key};
    }
  }
}
