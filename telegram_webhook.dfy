/**
 * The Telegram webhook (telegram/webhook.ts): the fail-open update
 * de-duplication lock, the request handler's check order, the in-process
 * session-state cache with sliding expiry, the Intervals.icu instruction
 * fingerprint, the 4096-character message chunker and the command parser.
 * The clock is a parameter; the agent run, the Telegram Bot API and the
 * queue are outside the model.
 */
module TelegramWebhook {
  import opened Wrappers
  import opened Strings
  import opened Json
  import opened Kv
  import LargeTools
  import UpstashSession
  import DolorChat
  import IntervalsOAuthStore
  import SessionExtraStore

  const TelegramCharLimit: nat := 4096
  const UpdateDedupeTtlSeconds: nat := 600
  const LocalSessionTtlMs: nat := 10 * 60 * 1000

  // ---------------------------------------------------------------------
  // Update de-duplication
  // ---------------------------------------------------------------------

  function UpdateLockKey(updateId: int): string {
    "telegram:update:" + IntToString(updateId)
  }

  /**
   * `claimUpdateLock` on the store contents: a set-if-absent with a 600 s
   * expiry, claimed when it reports "OK"; a failing store claims without
   * writing (fail open).
   */
  function Claim(data: map<string, Entry>, updateId: int, storeFails: bool): (r: (bool, map<string, Entry>))
    ensures storeFails ==> r == (true, data)
    ensures !storeFails ==> (r.0 <==> UpdateLockKey(updateId) !in data)
    ensures !storeFails && UpdateLockKey(updateId) in data ==> r.1 == data
    ensures r.0 && !storeFails ==> r.1 == data[UpdateLockKey(updateId) := Entry(JStr("1"), Some(UpdateDedupeTtlSeconds))]
  {
    var key := UpdateLockKey(updateId);
    if storeFails then (true, data)
    else if key in data then (false, data)
    else (true, data[key := Entry(JStr("1"), Some(UpdateDedupeTtlSeconds))])
  }

  /** While the lock lives, the same update cannot be claimed twice. */
  lemma SecondClaimRefused(data: map<string, Entry>, updateId: int)
    requires Claim(data, updateId, false).0
    ensures !Claim(Claim(data, updateId, false).1, updateId, false).0
  {
  }

  /** Locks of different updates are independent. */
  lemma LockKeysDistinct(a: int, b: int)
    requires a != b
    ensures UpdateLockKey(a) != UpdateLockKey(b)
  {
    var p := "telegram:update:";
    if UpdateLockKey(a) == UpdateLockKey(b) {
      assert UpdateLockKey(a)[|p|..] == IntToString(a);
      assert UpdateLockKey(b)[|p|..] == IntToString(b);
      IntToStringInjective(a, b);
    }
  }

  method ClaimUpdateLock(redis: KvStore, updateId: int, storeFails: bool) returns (claimed: bool)
    modifies redis
    ensures (claimed, redis.data) == Claim(old(redis.data), updateId, storeFails)
  {
    var key := UpdateLockKey(updateId);
    if storeFails {
      return true;
    }
    if key in redis.data {
      return false;
    }
    redis.data := redis.data[key := Entry(JStr("1"), Some(UpdateDedupeTtlSeconds))];
    claimed := true;
  }

  // ---------------------------------------------------------------------
  // Request handler
  // ---------------------------------------------------------------------

  datatype TelegramMessage = TelegramMessage(
    messageId: int, text: Option<string>, fromId: Option<int>, chatId: int, threadId: Option<int>)

  datatype TelegramUpdate = TelegramUpdate(
    updateId: int, message: Option<TelegramMessage>, editedMessage: Option<TelegramMessage>)

  datatype Response = Response(status: nat, body: string)

  /** The response, and whether the update went to the queue or was processed inline. */
  datatype HandlerOutcome = HandlerOutcome(response: Response, enqueued: bool, processedInline: bool)

  /** `update.message ?? update.edited_message` */
  function MessageOf(u: TelegramUpdate): Option<TelegramMessage> {
    if u.message.Some? then u.message else u.editedMessage
  }

  /** `secretToken && header !== secretToken` */
  predicate Unauthorized(secretToken: Option<string>, header: Option<string>) {
    secretToken.Some? && secretToken.value != "" && header != secretToken
  }

  /** The handler gets as far as the lock: a POST that is authorised and whose body parsed. */
  predicate ReachesClaim(httpMethod: string, secretToken: Option<string>, header: Option<string>,
                         body: Option<TelegramUpdate>) {
    httpMethod == "POST" && !Unauthorized(secretToken, header) && body.Some?
  }

  const UpMessage: string := "Dolor Telegram webhook is up. Configure Telegram to POST updates to this URL."

  /** What the handler answers, given the lock outcome (consulted only once the body has parsed). */
  function Respond(httpMethod: string, secretToken: Option<string>, header: Option<string>,
                   body: Option<TelegramUpdate>, claimed: bool, enqueueSucceeds: bool): (r: HandlerOutcome)
    ensures r.enqueued ==> ReachesClaim(httpMethod, secretToken, header, body) && claimed
    ensures r.processedInline ==>
      (ReachesClaim(httpMethod, secretToken, header, body) && claimed && MessageOf(body.value).Some? && !enqueueSucceeds)
    ensures !(r.enqueued && r.processedInline)
    ensures r.response.status == 200 || r.response.status == 400 || r.response.status == 401 || r.response.status == 405
  {
    if httpMethod == "GET" then
      HandlerOutcome(Response(200, UpMessage), false, false)
    else if httpMethod != "POST" then HandlerOutcome(Response(405, "Method Not Allowed"), false, false)
    else if Unauthorized(secretToken, header) then HandlerOutcome(Response(401, "Unauthorized"), false, false)
    else if body.None? then HandlerOutcome(Response(400, "Bad Request"), false, false)
    else if !claimed then HandlerOutcome(Response(200, "Duplicate update"), false, false)
    else if MessageOf(body.value).None? then HandlerOutcome(Response(200, "No message to process"), false, false)
    else if enqueueSucceeds then HandlerOutcome(Response(200, "Queued"), true, false)
    else HandlerOutcome(Response(200, "OK"), false, true)
  }

  /**
   * The handler of `createTelegramWebhookHandler`. The parsed body (None for
   * invalid JSON), the lock store's failure and the queue's success are
   * parameters.
   */
  method HandleWebhookRequest(redis: KvStore, httpMethod: string, secretToken: Option<string>,
                              header: Option<string>, body: Option<TelegramUpdate>,
                              lockStoreFails: bool, enqueueSucceeds: bool) returns (out: HandlerOutcome)
    modifies redis
    ensures ReachesClaim(httpMethod, secretToken, header, body) ==>
      var c := Claim(old(redis.data), body.value.updateId, lockStoreFails);
      out == Respond(httpMethod, secretToken, header, body, c.0, enqueueSucceeds) && redis.data == c.1
    ensures !ReachesClaim(httpMethod, secretToken, header, body) ==>
      out == Respond(httpMethod, secretToken, header, body, false, enqueueSucceeds) && redis.data == old(redis.data)
  {
    if httpMethod == "GET" {
      return HandlerOutcome(Response(200, UpMessage), false, false);
    }
    if httpMethod != "POST" {
      return HandlerOutcome(Response(405, "Method Not Allowed"), false, false);
    }
    if secretToken.Some? && secretToken.value != "" && header != secretToken {
      return HandlerOutcome(Response(401, "Unauthorized"), false, false);
    }
    if body.None? {
      return HandlerOutcome(Response(400, "Bad Request"), false, false);
    }
    var update := body.value;
    var lockAcquired := ClaimUpdateLock(redis, update.updateId, lockStoreFails);
    if !lockAcquired {
      return HandlerOutcome(Response(200, "Duplicate update"), false, false);
    }
    var message := MessageOf(update);
    if message.None? {
      return HandlerOutcome(Response(200, "No message to process"), false, false);
    }
    if enqueueSucceeds {
      return HandlerOutcome(Response(200, "Queued"), true, false);
    }
    out := HandlerOutcome(Response(200, "OK"), false, true);
  }

  /**
   * A redelivered update is acknowledged with 200 and neither queued nor
   * processed, and an update without a message still takes the lock, so
   * its redelivery is reported as a duplicate.
   */
  lemma RedeliveryIsDuplicate(data: map<string, Entry>, header: Option<string>, secretToken: Option<string>,
                              u: TelegramUpdate, enqueueSucceeds: bool)
    requires !Unauthorized(secretToken, header)
    requires Claim(data, u.updateId, false).0
    ensures var second := Claim(Claim(data, u.updateId, false).1, u.updateId, false);
      Respond("POST", secretToken, header, Some(u), second.0, enqueueSucceeds)
        == HandlerOutcome(Response(200, "Duplicate update"), false, false)
  {
    SecondClaimRefused(data, u.updateId);
  }

  // ---------------------------------------------------------------------
  // Keys
  // ---------------------------------------------------------------------

  /** A thread id counts only when truthy (present and non-zero). */
  function EffectiveThread(threadId: Option<int>): Option<int> {
    if threadId.Some? && threadId.value != 0 then threadId else None
  }

  /** `getChatKey(chatId, threadId)`; the chat key is also the session id. */
  function GetChatKey(chatId: int, threadId: Option<int>): (r: string)
    ensures ':' in r <==> EffectiveThread(threadId).Some?
    ensures |IntToString(chatId)| <= |r| && r[..|IntToString(chatId)|] == IntToString(chatId)
  {
    NoColonInInt(chatId);
    if EffectiveThread(threadId).Some? then IntToString(chatId) + ":" + IntToString(threadId.value)
    else IntToString(chatId)
  }

  lemma NoColonInInt(i: int)
    ensures ':' !in IntToString(i)
  {
    var s := IntToString(i);
    if i >= 0 {
      assert forall j :: 0 <= j < |s| ==> '0' <= s[j] <= '9';
    } else {
      var t := NatToString(-i);
      assert s == "-" + t;
      assert forall j :: 0 <= j < |t| ==> '0' <= t[j] <= '9';
      assert forall j :: 1 <= j < |s| ==> s[j] == t[j - 1];
    }
  }

  /** In `a + ":" + b` with no colon in `a`, the first colon sits right after `a`. */
  lemma FirstColon(a: string, b: string)
    requires ':' !in a
    ensures IndexOf(a + ":" + b, ':') == |a|
  {
    var k := a + ":" + b;
    assert k[|a|] == ':';
    assert k[..|a|] == a;
  }

  /** A key with a thread splits at its first colon into the chat id and the thread id. */
  lemma ThreadKeyParts(a: int, t: int)
    ensures var k := IntToString(a) + ":" + IntToString(t);
      ':' in k && k[..IndexOf(k, ':')] == IntToString(a) && k[IndexOf(k, ':') + 1..] == IntToString(t)
  {
    NoColonInInt(a);
    var k := IntToString(a) + ":" + IntToString(t);
    FirstColon(IntToString(a), IntToString(t));
    assert k[|IntToString(a)|] == ':';
    assert k[..|IntToString(a)|] == IntToString(a);
    assert k[|IntToString(a)| + 1..] == IntToString(t);
  }

  /** Two chats share a key exactly when they have the same chat id and the same effective thread. */
  lemma ChatKeyInjective(a: int, t: Option<int>, b: int, u: Option<int>)
    ensures GetChatKey(a, t) == GetChatKey(b, u) <==> a == b && EffectiveThread(t) == EffectiveThread(u)
  {
    var ka, kb := GetChatKey(a, t), GetChatKey(b, u);
    var ta, tb := EffectiveThread(t), EffectiveThread(u);
    if ka == kb {
      if ta.Some? && tb.Some? {
        ThreadKeyParts(a, ta.value);
        ThreadKeyParts(b, tb.value);
        IntToStringInjective(a, b);
        IntToStringInjective(ta.value, tb.value);
      } else if ta.None? && tb.None? {
        IntToStringInjective(a, b);
      }
    }
  }

  /** `getInstructionKey(athleteId)` */
  function GetInstructionKey(athleteId: Option<string>): (r: string)
    ensures |r| > 8 && r[..8] == "athlete:"
    ensures athleteId.Some? && athleteId.value != "" ==> r[8..] == athleteId.value
  {
    if athleteId.Some? && athleteId.value != "" then "athlete:" + athleteId.value else "athlete:none"
  }

  /** Distinct athlete ids get distinct fingerprints. */
  lemma InstructionKeysDistinct(a: string, b: string)
    requires a != "" && b != "" && a != b
    ensures GetInstructionKey(Some(a)) != GetInstructionKey(Some(b))
  {
    assert GetInstructionKey(Some(a))[8..] == a;
    assert GetInstructionKey(Some(b))[8..] == b;
  }

  /** The athlete id "none" shares its fingerprint with having no athlete. */
  lemma InstructionKeyOfNone()
    ensures GetInstructionKey(Some("none")) == GetInstructionKey(None)
  {
  }

  // ---------------------------------------------------------------------
  // Session-state cache
  // ---------------------------------------------------------------------

  /** `SessionState`: the cached per-chat state, updated in place. */
  class SessionState {
    const session: UpstashSession.UpstashSession
    var athleteId: Option<string>
    var lastInstructionKey: Option<string>
    var expiresAt: Option<int>
    var intervalsAccessToken: Option<string>
    var intervalsScope: Option<string>

    /** `createSessionState`: a new session and an expiry ten minutes ahead. */
    constructor (s: UpstashSession.UpstashSession, now: int)
      ensures session == s && expiresAt == Some(now + LocalSessionTtlMs)
      ensures athleteId.None? && lastInstructionKey.None?
      ensures intervalsAccessToken.None? && intervalsScope.None?
    {
      session := s;
      expiresAt := Some(now + LocalSessionTtlMs);
      athleteId := None;
      lastInstructionKey := None;
      intervalsAccessToken := None;
      intervalsScope := None;
    }
  }

  /** `state?.expiresAt && state.expiresAt <= now` */
  predicate Expired(expiresAt: Option<int>, now: int) {
    expiresAt.Some? && expiresAt.value != 0 && expiresAt.value <= now
  }

  /** `sessionStore`, with the backing store and TTL its sessions are created with. */
  class SessionCache {
    var store: map<string, SessionState>
    const redis: KvStore
    /** `SESSION_TTL_SECONDS`: none in production, 600 s elsewhere. */
    const sessionTtlSeconds: Option<nat>

    constructor (kv: KvStore, production: bool)
      ensures store == map[] && redis == kv
      ensures sessionTtlSeconds == if production then None else Some(600)
    {
      store := map[];
      redis := kv;
      sessionTtlSeconds := if production then None else Some(600);
    }

    /** A state as `createSessionState(key)` makes it. */
    predicate FreshFor(state: SessionState, key: string, now: int)
      reads state
    {
      && state.session.sessionId == key
      && state.session.key == UpstashSession.DefaultKeyPrefix + key
      && state.session.redis == redis
      && state.session.ttlSeconds == sessionTtlSeconds
      && state.expiresAt == Some(now + LocalSessionTtlMs)
      && state.athleteId.None? && state.lastInstructionKey.None?
      && state.intervalsAccessToken.None? && state.intervalsScope.None?
    }

    method CreateSessionState(key: string, now: int) returns (state: SessionState)
      ensures fresh(state) && FreshFor(state, key, now)
    {
      var session := new UpstashSession.UpstashSession(Some(key), key, redis, None, sessionTtlSeconds);
      state := new SessionState(session, now);
    }

    /**
     * `ensureSessionState`: a live entry is kept, with its expiry slid to
     * now + 10 minutes; a missing or expired one is replaced by a fresh state.
     */
    method EnsureSessionState(key: string, now: int) returns (state: SessionState)
      modifies this, if key in store then {store[key]} else {}
      ensures store == old(store)[key := state]
      ensures key in old(store) && !Expired(old(store[key].expiresAt), now) ==>
        && state == old(store[key])
        && state.expiresAt == Some(now + LocalSessionTtlMs)
        && state.athleteId == old(state.athleteId)
        && state.lastInstructionKey == old(state.lastInstructionKey)
        && state.intervalsAccessToken == old(state.intervalsAccessToken)
        && state.intervalsScope == old(state.intervalsScope)
      ensures !(key in old(store) && !Expired(old(store[key].expiresAt), now)) ==>
        fresh(state) && FreshFor(state, key, now)
    {
      var existing := if key in store then Some(store[key]) else None;
      if existing.Some? && Expired(existing.value.expiresAt, now) {
        store := store - {key};
        existing := None;
      }
      if existing.None? {
        state := CreateSessionState(key, now);
        store := store[key := state];
      } else {
        state := existing.value;
        state.expiresAt := Some(now + LocalSessionTtlMs);
      }
    }

    /** `resetSessionState`: a fresh state for the key; the persisted items are left as they are. */
    method ResetSessionState(key: string, now: int) returns (state: SessionState)
      modifies this
      ensures store == old(store)[key := state]
      ensures fresh(state) && FreshFor(state, key, now)
      ensures state.session.Items() == old(UpstashSession.StoredItems(redis.data, UpstashSession.DefaultKeyPrefix + key))
    {
      state := CreateSessionState(key, now);
      store := store[key := state];
    }
  }

  // ---------------------------------------------------------------------
  // Instruction fingerprint
  // ---------------------------------------------------------------------

  /** `system(text)`: a system message item. */
  function SystemMessage(text: string): Json {
    JObj([("type", JStr("message")), ("role", JStr("system")), ("content", JStr(text))])
  }

  /** The item `ensureIntervalsInstruction` adds, as written: it passes `{ athleteId }`, an object. */
  function InstructionItemAsWritten(athleteId: Option<string>): Json {
    var arg := JObj(if athleteId.Some? then [("athleteId", JStr(athleteId.value))] else []);
    SystemMessage(DolorChat.BuildIntervalsInstructionFromValue(Some(arg)))
  }

  /** The item as intended: the instruction built from the athlete id itself. */
  function InstructionItem(athleteId: Option<string>): Json {
    SystemMessage(DolorChat.BuildIntervalsInstruction(athleteId))
  }

  /**
   * As written, the object argument is always truthy and prints as
   * "[object Object]": every instruction names that athlete, and with no
   * athlete the model is never asked to request the id.
   */
  lemma InstructionAsWrittenNamesObject(athleteId: Option<string>)
    ensures InstructionItemAsWritten(athleteId) == SystemMessage(DolorChat.InstructionFor("[object Object]"))
    ensures athleteId.None? ==> InstructionItemAsWritten(athleteId) != InstructionItem(athleteId)
    ensures athleteId.Some? && athleteId.value != "" && athleteId.value != "[object Object]" ==>
      InstructionItemAsWritten(athleteId) != InstructionItem(athleteId)
  {
    if athleteId.None? {
      DolorChat.InstructionInjective("[object Object]", "x");
    } else if athleteId.value != "" && athleteId.value != "[object Object]" {
      DolorChat.InstructionInjective("[object Object]", athleteId.value);
    }
  }

  /** The intended item names the athlete exactly when there is one. */
  lemma InstructionItemNamesAthlete(athleteId: Option<string>)
    ensures athleteId.Some? && athleteId.value != "" ==>
      InstructionItem(athleteId) == SystemMessage(DolorChat.InstructionFor(athleteId.value))
    ensures athleteId.None? || athleteId.value == "" ==>
      InstructionItem(athleteId) == SystemMessage(DolorChat.InstructionWithoutAthlete)
  {
  }

  /**
   * `ensureIntervalsInstruction` (with the athlete id passed as intended):
   * one system item is added only when the fingerprint changed, and the
   * fingerprint is then current, so a second call adds nothing.
   */
  method EnsureIntervalsInstruction(state: SessionState)
    modifies state, state.session.redis
    ensures state.lastInstructionKey == Some(GetInstructionKey(state.athleteId))
    ensures state.athleteId == old(state.athleteId)
    ensures old(state.lastInstructionKey) == Some(GetInstructionKey(old(state.athleteId))) ==>
      state.session.redis.data == old(state.session.redis.data)
    ensures old(state.lastInstructionKey) != Some(GetInstructionKey(old(state.athleteId))) ==>
      state.session.Items() == LargeTools.DropLargeItems(
        old(state.session.Items()) + [InstructionItem(state.athleteId)], state.session.large)
    ensures state.session.redis.data - {state.session.key} == old(state.session.redis.data) - {state.session.key}
  {
    var instructionKey := GetInstructionKey(state.athleteId);
    if state.lastInstructionKey == Some(instructionKey) {
      return;
    }
    state.session.AddItems([InstructionItem(state.athleteId)]);
    state.lastInstructionKey := Some(instructionKey);
  }

  /** The credential `syncIntervalsCredential` finds: none without a truthy user id or a truthy record. */
  function CredentialFor(oauthData: map<string, Entry>, telegramUserId: Option<int>): Option<Json> {
    if telegramUserId.Some? && telegramUserId.value != 0
    then IntervalsOAuthStore.StoredCredential(oauthData, IntervalsOAuthStore.TelegramTokenPrefix + IntToString(telegramUserId.value))
    else None
  }

  /** The state's token or athlete id differs from the credential's. */
  predicate CredentialChanged(accessToken: Option<string>, athleteId: Option<string>, c: Json) {
    accessToken != GetString(c, "accessToken") || athleteId != GetString(c, "athleteId")
  }

  /** The fields merged into the extra record that have a value. */
  function CredentialExtraFields(c: Json): seq<(string, Json)> {
    OptionalField("athleteId", GetString(c, "athleteId"))
      + OptionalField("intervalsAccessToken", GetString(c, "accessToken"))
      + OptionalField("intervalsScope", GetString(c, "scope"))
      + OptionalField("intervalsAthleteName", GetString(c, "athleteName"))
  }

  /** The merged fields whose value is `undefined`. */
  function UndefinedExtraKeys(c: Json): set<string> {
    (if GetString(c, "athleteId").None? then {"athleteId"} else {})
      + (if GetString(c, "accessToken").None? then {"intervalsAccessToken"} else {})
      + (if GetString(c, "scope").None? then {"intervalsScope"} else {})
      + (if GetString(c, "athleteName").None? then {"intervalsAthleteName"} else {})
  }

  function OptionalField(name: string, v: Option<string>): seq<(string, Json)> {
    if v.Some? then [(name, JStr(v.value))] else []
  }

  /**
   * `syncIntervalsCredential`: with a truthy Telegram user id and a stored
   * credential whose token or athlete id differs from the state's, the state
   * takes the credential's athlete id, token and scope, the fingerprint is
   * cleared and the session's extra record is merged; otherwise nothing
   * changes. A failing merge is caught and leaves the extra record as it was.
   */
  method SyncIntervalsCredential(state: SessionState, telegramUserId: Option<int>,
                                 oauth: IntervalsOAuthStore.OAuthStore,
                                 extra: SessionExtraStore.SessionExtraStore,
                                 now: string, mergeFails: bool)
    modifies state, extra.redis
    ensures var cred := CredentialFor(old(oauth.redis.data), telegramUserId);
      cred.None? || !CredentialChanged(old(state.intervalsAccessToken), old(state.athleteId), cred.value) ==>
        && state.athleteId == old(state.athleteId)
        && state.lastInstructionKey == old(state.lastInstructionKey)
        && state.intervalsAccessToken == old(state.intervalsAccessToken)
        && state.intervalsScope == old(state.intervalsScope)
        && extra.redis.data == old(extra.redis.data)
    ensures var cred := CredentialFor(old(oauth.redis.data), telegramUserId);
      cred.Some? && CredentialChanged(old(state.intervalsAccessToken), old(state.athleteId), cred.value) ==>
        && state.athleteId == GetString(cred.value, "athleteId")
        && state.intervalsAccessToken == GetString(cred.value, "accessToken")
        && state.intervalsScope == GetString(cred.value, "scope")
        && state.lastInstructionKey.None?
        && (mergeFails ==> extra.redis.data == old(extra.redis.data))
    ensures var cred := CredentialFor(old(oauth.redis.data), telegramUserId);
      var id := state.session.sessionId;
      var existing := old(extra.Record(id));
      cred.Some? && CredentialChanged(old(state.intervalsAccessToken), old(state.athleteId), cred.value)
        && !mergeFails && id != "" ==>
        extra.Record(id) == Some(SessionExtraStore.ExtraRecord(
          SessionExtraStore.WithoutKeys(
            SessionExtraStore.SpreadMerge(if existing.Some? then existing.value.data else [], CredentialExtraFields(cred.value)),
            UndefinedExtraKeys(cred.value)),
          Some(JStr(now))))
    ensures state.expiresAt == old(state.expiresAt)
  {
    if telegramUserId.None? || telegramUserId.value == 0 {
      return;
    }
    var credential := oauth.GetTelegramIntervalsCredential(telegramUserId.value);
    if credential.None? {
      return;
    }
    var c := credential.value;
    if state.intervalsAccessToken == GetString(c, "accessToken") && state.athleteId == GetString(c, "athleteId") {
      return;
    }
    state.athleteId := GetString(c, "athleteId");
    state.intervalsAccessToken := GetString(c, "accessToken");
    state.intervalsScope := GetString(c, "scope");
    state.lastInstructionKey := None;
    if !mergeFails {
      var sessionId := state.session.GetSessionId();
      var _ := extra.Merge(sessionId, CredentialExtraFields(c), UndefinedExtraKeys(c), now);
    }
  }

  /**
   * Syncing a freshly saved credential adopts exactly its athlete id, token
   * and scope.
   */
  lemma SyncAdoptsSavedCredential(c: IntervalsOAuthStore.Credential)
    ensures GetString(IntervalsOAuthStore.EncodeCredential(c), "athleteId") == Some(c.athleteId)
    ensures GetString(IntervalsOAuthStore.EncodeCredential(c), "accessToken") == Some(c.accessToken)
    ensures GetString(IntervalsOAuthStore.EncodeCredential(c), "scope") == Some(c.scope)
    ensures GetInstructionKey(Some(c.athleteId)) == if c.athleteId != "" then "athlete:" + c.athleteId else "athlete:none"
  {
    IntervalsOAuthStore.CredentialFields(c);
  }

  // ---------------------------------------------------------------------
  // Message chunking
  // ---------------------------------------------------------------------

  /** The non-whitespace characters of `s`, in order. */
  function NonWhitespace(s: string): (r: string)
    ensures |r| <= |s|
  {
    if s == [] then [] else (if IsWhitespace(s[0]) then [] else [s[0]]) + NonWhitespace(s[1..])
  }

  lemma {:induction false} NonWhitespaceAppend(a: string, b: string)
    ensures NonWhitespace(a + b) == NonWhitespace(a) + NonWhitespace(b)
  {
    if a == [] {
      assert a + b == b;
    } else {
      assert (a + b)[0] == a[0];
      assert (a + b)[1..] == a[1..] + b;
      NonWhitespaceAppend(a[1..], b);
    }
  }

  lemma {:induction false} NonWhitespaceOfBlank(s: string)
    requires AllWhitespace(s)
    ensures NonWhitespace(s) == []
  {
    if s != [] {
      NonWhitespaceOfBlank(s[1..]);
    }
  }

  lemma BlankPrefix(p: string, rest: string)
    requires AllWhitespace(p)
    ensures NonWhitespace(p + rest) == NonWhitespace(rest)
  {
    NonWhitespaceAppend(p, rest);
    NonWhitespaceOfBlank(p);
  }

  lemma BlankSuffix(rest: string, p: string)
    requires AllWhitespace(p)
    ensures NonWhitespace(rest + p) == NonWhitespace(rest)
  {
    NonWhitespaceAppend(rest, p);
    NonWhitespaceOfBlank(p);
  }

  lemma NonWhitespaceTrimStart(s: string)
    ensures NonWhitespace(TrimStart(s)) == NonWhitespace(s)
  {
    var a := TrimStart(s);
    TrimStartSkipsWhitespace(s);
    TrimStartSuffix(s);
    assert s == s[..|s| - |a|] + a;
    BlankPrefix(s[..|s| - |a|], a);
  }

  lemma NonWhitespaceTrimEnd(s: string)
    ensures NonWhitespace(TrimEnd(s)) == NonWhitespace(s)
  {
    var b := TrimEnd(s);
    TrimEndSkipsWhitespace(s);
    TrimEndPrefix(s);
    assert s == b + s[|b|..];
    BlankSuffix(b, s[|b|..]);
  }

  /** Trimming removes only whitespace. */
  lemma NonWhitespaceTrim(s: string)
    ensures NonWhitespace(Trim(s)) == NonWhitespace(s)
  {
    NonWhitespaceTrimStart(s);
    NonWhitespaceTrimEnd(TrimStart(s));
  }

  function Concat(parts: seq<string>): string {
    if parts == [] then [] else Concat(parts[..|parts| - 1]) + parts[|parts| - 1]
  }

  lemma ConcatSnoc(parts: seq<string>, c: string)
    ensures Concat(parts + [c]) == Concat(parts) + c
  {
    assert (parts + [c])[..|parts|] == parts;
  }

  /** A chunk as sent: non-empty, within the limit, no whitespace at either end. */
  predicate GoodChunk(c: string) {
    0 < |c| <= TelegramCharLimit && Trimmed(c)
  }

  /** No whitespace at either end. */
  predicate Trimmed(s: string) {
    s == [] || (!IsWhitespace(s[0]) && !IsWhitespace(s[|s| - 1]))
  }

  /**
   * One pass of the loop: cutting a trimmed text after `n` characters gives
   * a good chunk and a shorter trimmed remainder, and loses no
   * non-whitespace character.
   */
  lemma ChunkStep(remaining: string, n: nat)
    requires 0 < n <= TelegramCharLimit && n < |remaining| && Trimmed(remaining)
    ensures GoodChunk(Trim(remaining[..n]))
    ensures Trimmed(TrimStart(remaining[n..])) && |TrimStart(remaining[n..])| < |remaining|
    ensures NonWhitespace(Trim(remaining[..n])) + NonWhitespace(TrimStart(remaining[n..])) == NonWhitespace(remaining)
  {
    var slice, rest := remaining[..n], remaining[n..];
    assert !AllWhitespace(slice) by { assert !IsWhitespace(slice[0]); }
    assert remaining == slice + rest;
    NonWhitespaceAppend(slice, rest);
    NonWhitespaceTrim(slice);
    NonWhitespaceTrimStart(rest);
    var next := TrimStart(rest);
    TrimStartSuffix(rest);
    if next != [] {
      assert next == rest[|rest| - |next|..];
      assert next[|next| - 1] == remaining[|remaining| - 1];
    }
  }

  predicate AllGood(chunks: seq<string>) {
    forall i :: 0 <= i < |chunks| ==> GoodChunk(chunks[i])
  }

  /** The loop's step stated on the whole chunk list. */
  lemma ChunkStepAll(chunks: seq<string>, remaining: string, n: nat)
    requires 0 < n <= TelegramCharLimit && n < |remaining| && Trimmed(remaining) && AllGood(chunks)
    ensures AllGood(chunks + [Trim(remaining[..n])])
    ensures Trimmed(TrimStart(remaining[n..])) && |TrimStart(remaining[n..])| < |remaining|
    ensures NonWhitespace(Concat(chunks + [Trim(remaining[..n])])) + NonWhitespace(TrimStart(remaining[n..]))
      == NonWhitespace(Concat(chunks)) + NonWhitespace(remaining)
  {
    var chunk, next := Trim(remaining[..n]), TrimStart(remaining[n..]);
    ChunkStep(remaining, n);
    ConcatSnoc(chunks, chunk);
    NonWhitespaceAppend(Concat(chunks), chunk);
    ConcatAssociative(NonWhitespace(Concat(chunks)), NonWhitespace(chunk), NonWhitespace(next));
  }

  /** The last chunk. */
  lemma ChunkLast(chunks: seq<string>, remaining: string)
    requires 0 < |remaining| <= TelegramCharLimit && Trimmed(remaining) && AllGood(chunks)
    ensures AllGood(chunks + [remaining])
    ensures NonWhitespace(Concat(chunks + [remaining])) == NonWhitespace(Concat(chunks)) + NonWhitespace(remaining)
  {
    ConcatSnoc(chunks, remaining);
    NonWhitespaceAppend(Concat(chunks), remaining);
  }

  /**
   * Where one pass of the loop cuts a text longer than the limit: at the
   * last newline of the first 4096 characters when that newline lies past
   * index 2048, otherwise after exactly 4096 characters.
   */
  function CutLength(remaining: string): (r: nat)
    requires |remaining| > TelegramCharLimit
    ensures TelegramCharLimit / 2 < r <= TelegramCharLimit
    ensures r < TelegramCharLimit ==> remaining[r] == '\n'
    ensures forall j :: r < j < TelegramCharLimit ==> remaining[j] != '\n'
    ensures r == TelegramCharLimit <==> forall j :: TelegramCharLimit / 2 < j < TelegramCharLimit ==> remaining[j] != '\n'
  {
    var window := remaining[..TelegramCharLimit];
    var lastBreak := LastIndexOf(window, '\n');
    if lastBreak > TelegramCharLimit / 2 then lastBreak else TelegramCharLimit
  }

  /** The chunks the loop produces from an already trimmed text. */
  function ChunksOf(remaining: string): (r: seq<string>)
    decreases |remaining|
  {
    if |remaining| > TelegramCharLimit then
      var n := CutLength(remaining);
      [Trim(remaining[..n])] + ChunksOf(TrimStart(remaining[n..]))
    else if remaining == [] then []
    else [remaining]
  }

  /** The loop body's cut is `CutLength`. */
  lemma CutLengthOfBreak(remaining: string, lastBreak: int)
    requires |remaining| > TelegramCharLimit && lastBreak == LastIndexOf(remaining[..TelegramCharLimit], '\n')
    ensures CutLength(remaining) == if lastBreak > TelegramCharLimit / 2 then lastBreak else TelegramCharLimit
  {
  }

  /** A prefix of the first 4096 characters is a prefix of the text. */
  lemma WindowPrefix(remaining: string, n: nat)
    requires n <= TelegramCharLimit <= |remaining|
    ensures remaining[..TelegramCharLimit][..n] == remaining[..n]
  {
  }

  /** One pass of the loop keeps its invariants. */
  lemma ChunkPass(text: string, trimmed: string, chunks: seq<string>, remaining: string, n: nat)
    requires |remaining| > TelegramCharLimit && n == CutLength(remaining)
    requires Trimmed(remaining) && AllGood(chunks)
    requires NonWhitespace(Concat(chunks)) + NonWhitespace(remaining) == NonWhitespace(text)
    requires chunks + ChunksOf(remaining) == ChunksOf(trimmed)
    ensures var chunks', remaining' := chunks + [Trim(remaining[..n])], TrimStart(remaining[n..]);
      && Trimmed(remaining') && AllGood(chunks') && |remaining'| < |remaining|
      && NonWhitespace(Concat(chunks')) + NonWhitespace(remaining') == NonWhitespace(text)
      && chunks' + ChunksOf(remaining') == ChunksOf(trimmed)
  {
    ChunkStepAll(chunks, remaining, n);
    ChunksOfUnfold(remaining, n);
    ConcatAssociative(chunks, [Trim(remaining[..n])], ChunksOf(TrimStart(remaining[n..])));
  }

  lemma ChunksOfUnfold(remaining: string, n: nat)
    requires |remaining| > TelegramCharLimit && n == CutLength(remaining)
    ensures ChunksOf(remaining) == [Trim(remaining[..n])] + ChunksOf(TrimStart(remaining[n..]))
  {
  }

  /** The end of `ChunksOf`, for the loop's exit. */
  lemma ChunksOfLast(remaining: string)
    requires |remaining| <= TelegramCharLimit
    ensures ChunksOf(remaining) == if remaining == [] then [] else [remaining]
  {
  }

  /** `ChunksOf` gives no chunk only for the empty text. */
  lemma ChunksOfEmpty(remaining: string)
    ensures ChunksOf(remaining) == [] <==> remaining == []
  {
  }

  /**
   * `chunkMessage`: every chunk is non-empty, at most 4096 characters and
   * trimmed; together the chunks hold every non-whitespace character of the
   * text in order; blank text gives no chunk, and text whose trimmed form
   * fits gives exactly that one chunk.
   */
  method ChunkMessage(text: string) returns (chunks: seq<string>)
    ensures AllGood(chunks)
    ensures NonWhitespace(Concat(chunks)) == NonWhitespace(text)
    ensures chunks == [] <==> AllWhitespace(text)
    ensures |Trim(text)| <= TelegramCharLimit ==> chunks == if Trim(text) == [] then [] else [Trim(text)]
    ensures chunks == ChunksOf(Trim(text))
  {
    chunks := [];
    var remaining := Trim(text);
    ghost var trimmed := remaining;
    NonWhitespaceTrim(text);
    while |remaining| > TelegramCharLimit
      invariant Trimmed(remaining) && AllGood(chunks)
      invariant NonWhitespace(Concat(chunks)) + NonWhitespace(remaining) == NonWhitespace(text)
      invariant chunks + ChunksOf(remaining) == ChunksOf(trimmed)
      decreases |remaining|
    {
      var slice := remaining[..TelegramCharLimit];
      var lastBreak := LastIndexOf(slice, '\n');
      if lastBreak > TelegramCharLimit / 2 {
        WindowPrefix(remaining, lastBreak);
        slice := slice[..lastBreak];
      }
      CutLengthOfBreak(remaining, lastBreak);
      ChunkPass(text, trimmed, chunks, remaining, |slice|);
      chunks := chunks + [Trim(slice)];
      remaining := TrimStart(remaining[|slice|..]);
    }
    ChunksOfLast(remaining);
    if |remaining| > 0 {
      ChunkLast(chunks, remaining);
      chunks := chunks + [remaining];
    }
    ChunksOfEmpty(trimmed);
    if |trimmed| <= TelegramCharLimit {
      ChunksOfLast(trimmed);
    }
  }

  // ---------------------------------------------------------------------
  // Commands
  // ---------------------------------------------------------------------

  datatype Command = Command(command: string, args: seq<string>, raw: string)

  /**
   * `parseCommand`: null unless the text starts with "/"; the first word,
   * with any "@bot" suffix dropped and lower-cased, is the command and the
   * remaining words are the arguments.
   */
  function ParseCommand(text: string): (r: Option<Command>)
    ensures r.Some? ==> StartsWith(text, "/") && r.value.command != [] && '@' !in r.value.command
    ensures r.Some? ==> r.value.raw in Words(Trim(text))
  {
    if !StartsWith(text, "/") then None
    else
      var words := Words(Trim(text));
      if words == [] then None
      else
        var raw := words[0];
        var normalized := Lower(Split(raw, '@')[0]);
        if normalized == [] then None else Some(Command(normalized, words[1..], raw))
  }

  /** The part of `s` before its first `c`: `s.split(c)[0]`. */
  lemma SplitHead(s: string, c: char)
    ensures Split(s, c)[0] == if c in s then s[..IndexOf(s, c)] else s
  {
  }

  /** A text that starts with "/" trims to a text whose first word starts with "/". */
  lemma SlashFirstWord(text: string)
    requires StartsWith(text, "/")
    ensures Words(Trim(text)) != [] && Words(Trim(text))[0] != [] && Words(Trim(text))[0][0] == '/'
  {
    assert text[0] == '/';
    assert TrimStart(text) == text;
    assert !AllWhitespace(text) by { assert !IsWhitespace(text[0]); }
    var t := Trim(text);
    TrimEndPrefix(text);
    assert t == TrimEnd(text) && t != [];
    assert t[0] == '/';
    assert TrimStart(t) == t;
    assert WordLength(t) >= 1;
  }

  /** Lower-casing keeps a leading "/", adds no '@' and leaves no upper-case ASCII letter. */
  lemma LowerHead(head: string)
    requires head != [] && head[0] == '/' && '@' !in head
    ensures Lower(head) != [] && Lower(head)[0] == '/' && '@' !in Lower(head)
    ensures forall i :: 0 <= i < |Lower(head)| ==> !('A' <= Lower(head)[i] <= 'Z')
  {
    var r := Lower(head);
    forall i | 0 <= i < |r| ensures r[i] != '@' {
      assert head[i] != '@';
    }
  }

  /** The head of `raw.split("@")` keeps a leading "/" and holds no '@'. */
  lemma SplitHeadSlash(raw: string)
    requires raw != [] && raw[0] == '/'
    ensures var head := Split(raw, '@')[0];
      head != [] && head[0] == '/' && '@' !in head
      && head == if '@' in raw then raw[..IndexOf(raw, '@')] else raw
  {
    SplitHead(raw, '@');
    if '@' in raw {
      assert IndexOf(raw, '@') > 0;
    }
  }

  /**
   * A text is a command exactly when it starts with "/". The command then
   * starts with "/", holds no '@' and no upper-case ASCII letter, and is the
   * lower-cased part of the first word before any '@'; the arguments are the
   * other words.
   */
  lemma ParseCommandSpec(text: string)
    ensures ParseCommand(text).Some? <==> StartsWith(text, "/")
    ensures ParseCommand(text).Some? ==>
      var cmd := ParseCommand(text).value;
      var words := Words(Trim(text));
      && words != [] && cmd.raw == words[0] && cmd.args == words[1..]
      && cmd.command == Lower(if '@' in cmd.raw then cmd.raw[..IndexOf(cmd.raw, '@')] else cmd.raw)
      && cmd.command[0] == '/'
      && '@' !in cmd.command
      && forall i :: 0 <= i < |cmd.command| ==> !('A' <= cmd.command[i] <= 'Z')
  {
    if StartsWith(text, "/") {
      SlashFirstWord(text);
      var raw := Words(Trim(text))[0];
      SplitHeadSlash(raw);
      LowerHead(Split(raw, '@')[0]);
    }
  }
}
