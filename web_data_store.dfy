/**
 * The web chat's data store (lib/web-data-store.ts): users linked to an
 * Intervals.icu athlete, login sessions, chat threads with their messages,
 * each user's most-recently-used thread list, and the maps from Telegram
 * chats and users. The key-value store is one map per key family; ids and
 * clock readings (milliseconds) are parameters.
 */
module WebDataStore {
  import opened Wrappers
  import opened Strings
  import opened Json

  /** Thirty days, in seconds. */
  const SessionTtlSeconds: nat := 30 * 24 * 60 * 60
  const CookieName: string := "dolor_web_session"

  datatype IntervalsIdentity = IntervalsIdentity(
    athleteId: string, athleteName: Option<string>, accessToken: string,
    scope: Option<string>, tokenType: Option<string>, updatedAt: int)

  datatype WebUser = WebUser(
    id: string, createdAt: int, updatedAt: int, displayName: Option<string>,
    intervals: Option<IntervalsIdentity>)

  datatype WebSession = WebSession(id: string, userId: string, createdAt: int, expiresAt: int)

  datatype SourceType = Web | Telegram
  datatype Role = UserRole | AssistantRole | SystemRole
  datatype MessageSource = FromWebUser | FromWebAssistant | FromTelegramUser | FromTelegramAssistant | FromSystem

  datatype ThreadMessage = ThreadMessage(
    id: string, threadId: string, role: Role, content: string, source: MessageSource,
    createdAt: int, meta: seq<(string, Json)>)

  /** What a caller hands to `appendMessage`; the id, time and meta may be left out. */
  datatype NewMessage = NewMessage(
    id: Option<string>, role: Role, content: string, source: MessageSource,
    createdAt: Option<int>, meta: Option<seq<(string, Json)>>)

  /** The public view of a thread. */
  datatype ChatThread = ChatThread(
    id: string, userId: string, title: string, sourceType: SourceType, sourceRef: Option<string>,
    readOnly: bool, archived: bool, createdAt: int, updatedAt: int, lastMessageAt: int,
    messageCount: int)

  datatype StoredThread = StoredThread(
    id: string, userId: string, title: string, sourceType: SourceType, sourceRef: Option<string>,
    readOnly: bool, archived: bool, createdAt: int, updatedAt: int, lastMessageAt: int,
    messageCount: int, agentSessionId: string, messages: seq<ThreadMessage>)

  /** `toPublicThread` */
  function ToPublicThread(t: StoredThread): (r: ChatThread)
    ensures r.id == t.id && r.userId == t.userId && r.title == t.title && r.archived == t.archived
    ensures r.lastMessageAt == t.lastMessageAt && r.messageCount == t.messageCount
  {
    ChatThread(t.id, t.userId, t.title, t.sourceType, t.sourceRef, t.readOnly, t.archived,
               t.createdAt, t.updatedAt, t.lastMessageAt, t.messageCount)
  }

  // ---------------------------------------------------------------------
  // Most-recently-used lists
  // ---------------------------------------------------------------------

  function Without(ids: seq<string>, id: string): (r: seq<string>)
    ensures id !in r
    ensures forall x :: x in r <==> x in ids && x != id
    ensures |r| <= |ids|
  {
    if ids == [] then []
    else (if ids[0] == id then [] else [ids[0]]) + Without(ids[1..], id)
  }

  predicate NoDuplicates(ids: seq<string>) {
    forall i, j :: 0 <= i < j < |ids| ==> ids[i] != ids[j]
  }

  /** `[id, ...ids.filter((item) => item !== id)]` */
  function MoveToFront(ids: seq<string>, id: string): (r: seq<string>)
    ensures r != [] && r[0] == id && r[1..] == Without(ids, id)
    ensures forall x :: x in r <==> x in ids || x == id
  {
    [id] + Without(ids, id)
  }

  lemma {:induction false} WithoutNoDuplicates(ids: seq<string>, id: string)
    requires NoDuplicates(ids)
    ensures NoDuplicates(Without(ids, id))
  {
    if ids != [] {
      WithoutNoDuplicates(ids[1..], id);
      var rest := Without(ids[1..], id);
      assert ids[0] !in ids[1..];
      assert ids[0] !in rest;
    }
  }

  /** Moving an id to the front never creates a duplicate. */
  lemma MoveToFrontNoDuplicates(ids: seq<string>, id: string)
    requires NoDuplicates(ids)
    ensures NoDuplicates(MoveToFront(ids, id))
  {
    WithoutNoDuplicates(ids, id);
  }

  /** The other ids keep their relative order: an id before another in the old list stays before it. */
  lemma {:induction false} WithoutKeepsOrder(ids: seq<string>, id: string, i: nat, j: nat)
    requires i < j < |ids| && ids[i] != id && ids[j] != id
    ensures exists a, b :: 0 <= a < b < |Without(ids, id)| && Without(ids, id)[a] == ids[i] && Without(ids, id)[b] == ids[j]
  {
    var rest := Without(ids[1..], id);
    if i == 0 {
      assert ids[j] == ids[1..][j - 1];
      assert ids[j] in rest;
      var b :| 0 <= b < |rest| && rest[b] == ids[j];
      var r := Without(ids, id);
      assert r == [ids[0]] + rest;
      assert r[0] == ids[i] && r[b + 1] == ids[j];
    } else {
      WithoutKeepsOrder(ids[1..], id, i - 1, j - 1);
      var a, b :| 0 <= a < b < |rest| && rest[a] == ids[1..][i - 1] && rest[b] == ids[1..][j - 1];
      var head := if ids[0] == id then [] else [ids[0]];
      var r := Without(ids, id);
      assert r == head + rest;
      assert r[|head| + a] == ids[i] && r[|head| + b] == ids[j];
    }
  }

  // ---------------------------------------------------------------------
  // Ordering threads
  // ---------------------------------------------------------------------

  predicate SortedByRecent(ts: seq<ChatThread>) {
    forall i, j :: 0 <= i < j < |ts| ==> ts[i].lastMessageAt >= ts[j].lastMessageAt
  }

  function InsertByRecent(t: ChatThread, sorted: seq<ChatThread>): (r: seq<ChatThread>)
    requires SortedByRecent(sorted)
    ensures multiset(r) == multiset(sorted) + multiset{t}
    ensures SortedByRecent(r)
  {
    if sorted == [] || sorted[0].lastMessageAt <= t.lastMessageAt then
      InsertFront(t, sorted);
      [t] + sorted
    else
      var rest := InsertByRecent(t, sorted[1..]);
      assert sorted == [sorted[0]] + sorted[1..];
      InsertBehind(sorted[0], sorted[1..], t, rest);
      [sorted[0]] + rest
  }

  /** A thread at least as recent as the head of a sorted list goes in front. */
  lemma InsertFront(t: ChatThread, sorted: seq<ChatThread>)
    requires SortedByRecent(sorted) && (sorted == [] || sorted[0].lastMessageAt <= t.lastMessageAt)
    ensures SortedByRecent([t] + sorted)
  {
    var r := [t] + sorted;
    forall i, j | 0 <= i < j < |r| ensures r[i].lastMessageAt >= r[j].lastMessageAt {
      if i == 0 {
        assert r[j] == sorted[j - 1];
        assert j - 1 == 0 || sorted[0].lastMessageAt >= sorted[j - 1].lastMessageAt;
      }
    }
  }

  /** A head more recent than the inserted thread stays in front of the sorted insertion into the tail. */
  lemma InsertBehind(h: ChatThread, tail: seq<ChatThread>, t: ChatThread, rest: seq<ChatThread>)
    requires SortedByRecent([h] + tail) && h.lastMessageAt > t.lastMessageAt
    requires multiset(rest) == multiset(tail) + multiset{t} && SortedByRecent(rest)
    ensures SortedByRecent([h] + rest)
  {
    var r := [h] + rest;
    forall i, j | 0 <= i < j < |r| ensures r[i].lastMessageAt >= r[j].lastMessageAt {
      if i == 0 {
        var x := rest[j - 1];
        assert r[0] == h && r[j] == x;
        assert x in multiset(rest);
        if x != t {
          assert x in multiset(tail);
          var k :| 0 <= k < |tail| && tail[k] == x;
          assert ([h] + tail)[0] == h && ([h] + tail)[k + 1] == x;
        }
      } else {
        assert r[i] == rest[i - 1] && r[j] == rest[j - 1];
      }
    }
  }

  /** `.sort((a, b) => (a.lastMessageAt < b.lastMessageAt ? 1 : -1))`: most recent first. */
  function SortByRecent(ts: seq<ChatThread>): (r: seq<ChatThread>)
    ensures multiset(r) == multiset(ts)
    ensures SortedByRecent(r)
  {
    if ts == [] then []
    else
      assert ts == [ts[0]] + ts[1..];
      InsertByRecent(ts[0], SortByRecent(ts[1..]))
  }

  // ---------------------------------------------------------------------
  // The store
  // ---------------------------------------------------------------------

  /** A thread stored under its own id, with a message count that matches its messages. */
  predicate ThreadWellFormed(key: string, t: StoredThread) {
    t.id == key && t.messageCount == |t.messages|
  }

  class DataStore {
    var users: map<string, WebUser>
    var userByIntervals: map<string, string>
    var userThreads: map<string, seq<string>>
    var threads: map<string, StoredThread>
    var sessions: map<string, WebSession>
    var telegramChatMap: map<string, string>
    var telegramUserMap: map<int, string>

    constructor ()
      ensures users == map[] && userByIntervals == map[] && userThreads == map[]
      ensures threads == map[] && sessions == map[] && telegramChatMap == map[] && telegramUserMap == map[]
      ensures Valid()
    {
      users, userByIntervals, userThreads := map[], map[], map[];
      threads, sessions, telegramChatMap, telegramUserMap := map[], map[], map[], map[];
    }

    /** Thread lists hold no id twice; a thread is stored under its own id with a true message count. */
    predicate Valid()
      reads this
    {
      && (forall u :: u in userThreads ==> NoDuplicates(userThreads[u]))
      && (forall k :: k in threads ==> ThreadWellFormed(k, threads[k]))
    }

    /** `loadUserThreadIds` */
    function UserThreadIds(userId: string): seq<string>
      reads this
    {
      if userId in userThreads then userThreads[userId] else []
    }

    /** `createWebSession`: a session for the user, stored under its id, expiring after thirty days. */
    method CreateWebSession(userId: string, id: string, now: int) returns (session: WebSession)
      modifies this
      ensures session == WebSession(id, userId, now, now + SessionTtlSeconds * 1000)
      ensures sessions == old(sessions)[id := session]
      ensures unchanged(this`users, this`userByIntervals, this`userThreads, this`threads,
                        this`telegramChatMap, this`telegramUserMap)
    {
      session := WebSession(id, userId, now, now + SessionTtlSeconds * 1000);
      sessions := sessions[id := session];
    }

    /** `getWebSession`: none for an empty id or an unknown one; an expired session is deleted. */
    method GetWebSession(id: string, now: int) returns (r: Option<WebSession>)
      modifies this
      ensures id == "" || id !in old(sessions) ==> r.None? && sessions == old(sessions)
      ensures id != "" && id in old(sessions) && old(sessions)[id].expiresAt <= now ==>
        r.None? && sessions == old(sessions) - {id}
      ensures id != "" && id in old(sessions) && old(sessions)[id].expiresAt > now ==>
        r == Some(old(sessions)[id]) && sessions == old(sessions)
      ensures r.Some? ==> r.value.expiresAt > now
      ensures unchanged(this`users, this`userByIntervals, this`userThreads, this`threads,
                        this`telegramChatMap, this`telegramUserMap)
    {
      if id == "" || id !in sessions {
        return None;
      }
      var session := sessions[id];
      if session.expiresAt <= now {
        sessions := sessions - {id};
        return None;
      }
      r := Some(session);
    }

    method DeleteWebSession(id: string)
      modifies this
      ensures sessions == if id == "" then old(sessions) else old(sessions) - {id}
      ensures unchanged(this`users, this`userByIntervals, this`userThreads, this`threads,
                        this`telegramChatMap, this`telegramUserMap)
    {
      if id != "" {
        sessions := sessions - {id};
      }
    }

    /**
     * `upsertUserFromIntervals`: the user the athlete maps to, or a new one
     * (under the mapped id if there is one, else `newId`), with the identity
     * linked, a display name filled in if it had none, and the athlete
     * mapped to the user.
     */
    method UpsertUserFromIntervals(identity: IntervalsIdentity, newId: string, now: int) returns (user: WebUser)
      modifies this
      ensures var mapped := if identity.athleteId in old(userByIntervals) then Some(old(userByIntervals)[identity.athleteId]) else None;
        var existing := if mapped.Some? && mapped.value != "" && mapped.value in old(users) then Some(old(users)[mapped.value]) else None;
        var base := if existing.Some? then existing.value
                    else WebUser(if mapped.Some? then mapped.value else newId, now, now, identity.athleteName, None);
        user == base.(updatedAt := now, intervals := Some(identity), displayName := MergedDisplayName(base.displayName, identity.athleteName))
      ensures users == old(users)[user.id := user]
      ensures userByIntervals == old(userByIntervals)[identity.athleteId := user.id]
      ensures unchanged(this`userThreads, this`threads, this`sessions, this`telegramChatMap, this`telegramUserMap)
    {
      var mapped := if identity.athleteId in userByIntervals then Some(userByIntervals[identity.athleteId]) else None;
      var existing := if mapped.Some? && mapped.value != "" && mapped.value in users then Some(users[mapped.value]) else None;
      var base := if existing.Some? then existing.value
                  else WebUser(if mapped.Some? then mapped.value else newId, now, now, identity.athleteName, None);
      user := base.(updatedAt := now, intervals := Some(identity), displayName := MergedDisplayName(base.displayName, identity.athleteName));
      users := users[user.id := user];
      userByIntervals := userByIntervals[identity.athleteId := user.id];
    }

    /** `getUserById` */
    function GetUserById(userId: string): (r: Option<WebUser>)
      reads this
      ensures r.Some? <==> userId != "" && userId in users
      ensures r.Some? ==> r.value == users[userId]
    {
      if userId == "" || userId !in users then None else Some(users[userId])
    }

    /** `createThread`: a new, empty, writable web thread, moved to the front of the user's list. */
    method CreateThread(userId: string, title: string, id: string, now: int) returns (r: ChatThread)
      requires Valid()
      modifies this
      ensures Valid()
      ensures threads == old(threads)[id := NewWebThread(userId, title, id, now)]
      ensures userThreads == old(userThreads)[userId := MoveToFront(old(UserThreadIds(userId)), id)]
      ensures r == ToPublicThread(threads[id])
      ensures unchanged(this`users, this`userByIntervals, this`sessions, this`telegramChatMap, this`telegramUserMap)
    {
      var thread := NewWebThread(userId, title, id, now);
      threads := threads[id := thread];
      var ids := UserThreadIds(userId);
      MoveToFrontNoDuplicates(ids, id);
      userThreads := userThreads[userId := MoveToFront(ids, id)];
      r := ToPublicThread(thread);
    }

    /** `listThreads`: the user's stored threads with the given archived flag, most recent first. */
    function ListThreads(userId: string, archived: bool): (r: seq<ChatThread>)
      reads this
      ensures SortedByRecent(r)
      ensures multiset(r) == multiset(Listed(UserThreadIds(userId), archived))
      ensures forall t :: t in r ==> t.archived == archived
      ensures forall t :: t in r ==> exists id :: id in UserThreadIds(userId) && id in threads && t == ToPublicThread(threads[id])
    {
      var listed := Listed(UserThreadIds(userId), archived);
      var r := SortByRecent(listed);
      assert forall t :: t in r ==> t in multiset(listed);
      assert forall t :: t in r ==> t in listed;
      r
    }

    /** The stored threads among `ids` with the archived flag, in list order. */
    function Listed(ids: seq<string>, archived: bool): (r: seq<ChatThread>)
      reads this
      ensures forall t :: t in r ==> t.archived == archived && exists i :: 0 <= i < |ids| && ids[i] in threads && t == ToPublicThread(threads[ids[i]])
      ensures forall i :: 0 <= i < |ids| && ids[i] in threads && threads[ids[i]].archived == archived ==>
        ToPublicThread(threads[ids[i]]) in r
    {
      if ids == [] then []
      else
        var head := if ids[0] in threads && threads[ids[0]].archived == archived then [ToPublicThread(threads[ids[0]])] else [];
        var rest := Listed(ids[1..], archived);
        assert forall t :: t in rest ==> exists i :: 0 <= i < |ids| && ids[i] in threads && t == ToPublicThread(threads[ids[i]]) by {
          forall t | t in rest ensures exists i :: 0 <= i < |ids| && ids[i] in threads && t == ToPublicThread(threads[ids[i]]) {
            var j :| 0 <= j < |ids[1..]| && ids[1..][j] in threads && t == ToPublicThread(threads[ids[1..][j]]);
            assert ids[j + 1] == ids[1..][j];
          }
        }
        assert forall i :: 1 <= i < |ids| ==> ids[i] == ids[1..][i - 1];
        head + rest
    }

    /** `getThread` */
    function GetThread(threadId: string): (r: Option<ChatThread>)
      reads this
      ensures r.Some? <==> threadId in threads
      ensures r.Some? ==> r.value == ToPublicThread(threads[threadId])
    {
      if threadId in threads then Some(ToPublicThread(threads[threadId])) else None
    }

    /**
     * `updateThread`: none for a missing thread or another user's; a
     * non-blank title is stored trimmed, a given archived flag is stored,
     * and the update time always moves.
     */
    method UpdateThread(userId: string, threadId: string, title: Option<string>, archived: Option<bool>, now: int)
      returns (r: Option<ChatThread>)
      requires Valid()
      modifies this
      ensures Valid()
      ensures threadId !in old(threads) || old(threads)[threadId].userId != userId ==>
        r.None? && threads == old(threads)
      ensures threadId in old(threads) && old(threads)[threadId].userId == userId ==>
        var t := old(threads)[threadId];
        && threads == old(threads)[threadId := Patched(t, title, archived, now)]
        && r == Some(ToPublicThread(threads[threadId]))
      ensures unchanged(this`users, this`userByIntervals, this`userThreads, this`sessions,
                        this`telegramChatMap, this`telegramUserMap)
    {
      if threadId !in threads || threads[threadId].userId != userId {
        return None;
      }
      var existing := threads[threadId];
      ghost var t := existing;
      if title.Some? && Trim(title.value) != [] {
        existing := existing.(title := Trim(title.value));
      }
      if archived.Some? {
        existing := existing.(archived := archived.value);
      }
      existing := existing.(updatedAt := now);
      assert existing == Patched(t, title, archived, now);
      assert ThreadWellFormed(threadId, existing);
      threads := threads[threadId := existing];
      r := Some(ToPublicThread(existing));
    }

    /** `listMessages`: the last `limit` messages in order; none for a missing thread or a limit of 0 or less. */
    function ListMessages(threadId: string, limit: int): (r: seq<ThreadMessage>)
      reads this
      ensures threadId !in threads ==> r == []
      ensures threadId in threads ==>
        var ms := threads[threadId].messages;
        && |r| == (if limit <= 0 then 0 else if limit < |ms| then limit else |ms|)
        && r == ms[|ms| - |r|..]
    {
      if threadId !in threads then []
      else
        var ms := threads[threadId].messages;
        var start := if |ms| - limit > 0 then |ms| - limit else 0;
        if start <= |ms| then ms[start..] else []
    }

    /**
     * `appendMessage`: none, and nothing written, for a missing thread;
     * otherwise the message goes last, the count and times follow it, and
     * the thread moves to the front of its owner's list.
     */
    method AppendMessage(threadId: string, message: NewMessage, freshId: string, now: int)
      returns (r: Option<ThreadMessage>)
      requires Valid()
      modifies this
      ensures Valid()
      ensures threadId !in old(threads) ==> r.None? && threads == old(threads) && userThreads == old(userThreads)
      ensures threadId in old(threads) ==>
        var t := old(threads)[threadId];
        var record := Record(threadId, message, freshId, now);
        && r == Some(record)
        && threads == old(threads)[threadId := t.(messages := t.messages + [record], messageCount := |t.messages| + 1,
                                                  lastMessageAt := record.createdAt, updatedAt := record.createdAt)]
        && userThreads == old(userThreads)[t.userId := MoveToFront(old(UserThreadIds(t.userId)), threadId)]
      ensures unchanged(this`users, this`userByIntervals, this`sessions, this`telegramChatMap, this`telegramUserMap)
    {
      if threadId !in threads {
        return None;
      }
      var thread := threads[threadId];
      var record := Record(threadId, message, freshId, now);
      thread := thread.(messages := thread.messages + [record]);
      thread := thread.(messageCount := |thread.messages|, lastMessageAt := record.createdAt, updatedAt := record.createdAt);
      threads := threads[threadId := thread];
      var ids := UserThreadIds(thread.userId);
      MoveToFrontNoDuplicates(ids, threadId);
      userThreads := userThreads[thread.userId := MoveToFront(ids, threadId)];
      r := Some(record);
    }

    method LinkTelegramUserToUser(telegramUserId: int, userId: string)
      modifies this
      ensures telegramUserMap == old(telegramUserMap)[telegramUserId := userId]
      ensures unchanged(this`users, this`userByIntervals, this`userThreads, this`threads, this`sessions, this`telegramChatMap)
    {
      telegramUserMap := telegramUserMap[telegramUserId := userId];
    }

    function GetUserIdByTelegramUserId(telegramUserId: int): (r: Option<string>)
      reads this
      ensures r.Some? <==> telegramUserId in telegramUserMap
      ensures r.Some? ==> r.value == telegramUserMap[telegramUserId]
    {
      if telegramUserId in telegramUserMap then Some(telegramUserMap[telegramUserId]) else None
    }

    /**
     * `getOrCreateTelegramThread`: the thread the chat maps to when it
     * exists and belongs to the user; otherwise a new read-only Telegram
     * thread whose session is the chat, mapped from the chat and moved to
     * the front of the user's list.
     */
    method GetOrCreateTelegramThread(userId: string, chatKey: string, title: string, id: string, now: int)
      returns (r: StoredThread)
      requires Valid()
      modifies this
      ensures Valid()
      ensures ReusesTelegramThread(old(telegramChatMap), old(threads), userId, chatKey) ==>
        r == old(threads)[old(telegramChatMap)[chatKey]]
        && threads == old(threads) && telegramChatMap == old(telegramChatMap) && userThreads == old(userThreads)
      ensures !ReusesTelegramThread(old(telegramChatMap), old(threads), userId, chatKey) ==>
        && r == NewTelegramThread(userId, chatKey, title, id, now)
        && threads == old(threads)[id := r]
        && telegramChatMap == old(telegramChatMap)[chatKey := id]
        && userThreads == old(userThreads)[userId := MoveToFront(old(UserThreadIds(userId)), id)]
      ensures unchanged(this`users, this`userByIntervals, this`sessions, this`telegramUserMap)
    {
      if ReusesTelegramThread(telegramChatMap, threads, userId, chatKey) {
        return threads[telegramChatMap[chatKey]];
      }
      r := NewTelegramThread(userId, chatKey, title, id, now);
      threads := threads[id := r];
      telegramChatMap := telegramChatMap[chatKey := id];
      var ids := UserThreadIds(userId);
      MoveToFrontNoDuplicates(ids, id);
      userThreads := userThreads[userId := MoveToFront(ids, id)];
    }
  }

  /** `!user.displayName && identity.athleteName`: a missing or empty name takes the athlete's. */
  function MergedDisplayName(current: Option<string>, athleteName: Option<string>): (r: Option<string>)
    ensures current.Some? && current.value != "" ==> r == current
    ensures (current.None? || current.value == "") && athleteName.Some? && athleteName.value != "" ==> r == athleteName
  {
    if (current.None? || current.value == "") && athleteName.Some? && athleteName.value != "" then athleteName else current
  }

  /** The stored title: the trimmed text, or `fallback` when it is blank. */
  function TitleOr(title: string, fallback: string): (r: string)
    ensures AllWhitespace(title) ==> r == fallback
    ensures !AllWhitespace(title) ==> r == Trim(title) && r != []
  {
    if Trim(title) != [] then Trim(title) else fallback
  }

  function NewWebThread(userId: string, title: string, id: string, now: int): (t: StoredThread)
    ensures ThreadWellFormed(id, t)
    ensures t.userId == userId && t.title == TitleOr(title, "New thread") && t.sourceType == Web
    ensures t.sourceRef.None? && !t.readOnly && !t.archived && t.messages == [] && t.agentSessionId == id
    ensures t.createdAt == now && t.updatedAt == now && t.lastMessageAt == now
  {
    StoredThread(id, userId, TitleOr(title, "New thread"), Web, None, false, false, now, now, now, 0, id, [])
  }

  function NewTelegramThread(userId: string, chatKey: string, title: string, id: string, now: int): (t: StoredThread)
    ensures ThreadWellFormed(id, t)
    ensures t.userId == userId && t.title == TitleOr(title, "Telegram") && t.sourceType == Telegram
    ensures t.sourceRef == Some(chatKey) && t.readOnly && !t.archived && t.messages == [] && t.agentSessionId == chatKey
  {
    StoredThread(id, userId, TitleOr(title, "Telegram"), Telegram, Some(chatKey), true, false, now, now, now, 0, chatKey, [])
  }

  /** The chat maps (to a non-empty id) to a stored thread of this user. */
  predicate ReusesTelegramThread(chatMap: map<string, string>, threads: map<string, StoredThread>, userId: string, chatKey: string) {
    chatKey in chatMap && chatMap[chatKey] != "" && chatMap[chatKey] in threads && threads[chatMap[chatKey]].userId == userId
  }

  /** The record `appendMessage` stores: the given id, time and meta, or fresh ones. */
  function Record(threadId: string, m: NewMessage, freshId: string, now: int): (r: ThreadMessage)
    ensures r.threadId == threadId && r.role == m.role && r.content == m.content && r.source == m.source
    ensures r.id == (if m.id.Some? then m.id.value else freshId)
    ensures r.createdAt == (if m.createdAt.Some? then m.createdAt.value else now)
    ensures r.meta == (if m.meta.Some? then m.meta.value else [])
  {
    ThreadMessage(m.id.GetOr(freshId), threadId, m.role, m.content, m.source, m.createdAt.GetOr(now), m.meta.GetOr([]))
  }

  /** The thread after `updateThread`'s patch. */
  function Patched(t: StoredThread, title: Option<string>, archived: Option<bool>, now: int): (r: StoredThread)
    ensures r.title == (if title.Some? && !AllWhitespace(title.value) then Trim(title.value) else t.title)
    ensures r.archived == (if archived.Some? then archived.value else t.archived)
    ensures r.updatedAt == now
    ensures r == t.(title := r.title, archived := r.archived, updatedAt := now)
  {
    t.(title := if title.Some? && Trim(title.value) != [] then Trim(title.value) else t.title,
       archived := archived.GetOr(t.archived),
       updatedAt := now)
  }
}
