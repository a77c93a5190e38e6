/**
 * Web sign-in through Intervals.icu OAuth (lib/web-oauth.ts): base-URL
 * normalisation, the session cookie, one-shot login states kept in memory
 * or in the key-value store, reading the identity out of the token
 * response, and the order of checks in the callback handler. The token
 * exchange over the network is a function parameter; random ids and the
 * clock are parameters.
 */
module WebOAuth {
  import opened Wrappers
  import opened Strings
  import opened Json
  import opened WebDataStore
  import WebChatApi

  const AuthorizeUrl: string := "https://intervals.icu/oauth/authorize"
  const Scopes: string := "ACTIVITY:READ,WELLNESS:READ,CALENDAR:READ"
  const StatePrefix: string := "intervals:web-oauth-state:"
  const StateTtlSeconds: nat := 5 * 60
  /** The session cookie lives as long as the stored session: thirty days. */
  const SessionCookieMaxAge: nat := 30 * 24 * 60 * 60

  // ---------------------------------------------------------------------
  // Base URL
  // ---------------------------------------------------------------------

  /** `value.replace(/\/+$/, "")`: the longest prefix not ending in "/". */
  function StripTrailingSlashes(s: string): (r: string)
    ensures |r| <= |s| && r == s[..|r|]
    ensures r == [] || r[|r| - 1] != '/'
    ensures forall i :: |r| <= i < |s| ==> s[i] == '/'
  {
    if s != [] && s[|s| - 1] == '/' then StripTrailingSlashes(s[..|s| - 1]) else s
  }

  /** `normalizeBaseUrl(value)`: null for a missing or empty value. */
  function NormalizeBaseUrl(value: Option<string>): (r: Option<string>)
    ensures r.None? <==> value.None? || value.value == ""
    ensures r.Some? ==> |r.value| <= |value.value| && r.value == value.value[..|r.value|]
    ensures r.Some? ==> r.value == [] || r.value[|r.value| - 1] != '/'
    ensures r.Some? ==> forall i :: |r.value| <= i < |value.value| ==> value.value[i] == '/'
  {
    if value.None? || value.value == "" then None else Some(StripTrailingSlashes(value.value))
  }

  /** A base URL the handlers accept (`!baseUrl` is false). */
  predicate Configured(baseUrl: Option<string>) {
    baseUrl.Some? && baseUrl.value != ""
  }

  /**
   * Normalising an accepted base URL again changes nothing. An all-slash
   * value normalises to "", which the handlers treat as missing, so the
   * lemma is stated for accepted results.
   */
  lemma NormalizeIdempotent(value: Option<string>)
    requires Configured(NormalizeBaseUrl(value))
    ensures NormalizeBaseUrl(NormalizeBaseUrl(value)) == NormalizeBaseUrl(value)
  {
  }

  /** An all-slash value is accepted by neither handler. */
  lemma AllSlashesUnconfigured(n: nat)
    ensures !Configured(NormalizeBaseUrl(Some(Repeat('/', n))))
  {
    var s := Repeat('/', n);
    var r := StripTrailingSlashes(s);
    assert forall i :: 0 <= i < |r| ==> r[i] == s[i] == '/';
  }

  /** Stripping the slashes from a URL with a path appended gives the URL back when it had none to strip. */
  lemma {:induction false} StripAppendedSlashes(base: string, n: nat)
    requires base == [] || base[|base| - 1] != '/'
    ensures StripTrailingSlashes(base + Repeat('/', n)) == base
    decreases n
  {
    if n == 0 {
      assert base + Repeat('/', 0) == base;
    } else {
      var s := base + Repeat('/', n);
      assert s[..|s| - 1] == base + Repeat('/', n - 1);
      StripAppendedSlashes(base, n - 1);
    }
  }

  // ---------------------------------------------------------------------
  // Session cookie
  // ---------------------------------------------------------------------

  /** `setCookie(name, value, maxAgeSeconds)` */
  function SetCookie(name: string, value: string, maxAge: nat): (r: string)
    ensures StartsWith(r, name + "=" + value + ";")
  {
    var head := name + "=" + value + ";";
    var r := head + " Path=/; HttpOnly; SameSite=Lax; Max-Age=" + NatToString(maxAge) + "; Secure";
    assert r[..|head|] == head;
    r
  }

  /**
   * The pair the browser sends back, "name=value", is the Set-Cookie
   * header's first attribute, and the cookie-header parser of the chat API
   * reads it as the one cookie `name` with that value.
   */
  lemma CookieReadsBack(name: string, value: string, maxAge: nat)
    requires name != [] && !IsWhitespace(name[0])
    requires '=' !in name && ';' !in name && ';' !in value
    requires value == [] || !IsWhitespace(value[|value| - 1])
    ensures Split(SetCookie(name, value, maxAge), ';')[0] == name + "=" + value
    ensures WebChatApi.CookieMap(Split(name + "=" + value, ';')) == map[name := value]
  {
    NoSemicolon(name, value);
    SetCookieFirstPart(name, value, maxAge);
    PairEntry(name, value);
    PairCookieMap(name + "=" + value);
  }

  lemma SetCookieFirstPart(name: string, value: string, maxAge: nat)
    requires ';' !in name + "=" + value
    ensures Split(SetCookie(name, value, maxAge), ';')[0] == name + "=" + value
  {
    var pair := name + "=" + value;
    var rest := " Path=/; HttpOnly; SameSite=Lax; Max-Age=" + NatToString(maxAge) + "; Secure";
    assert SetCookie(name, value, maxAge) == pair + [';'] + rest;
    SplitFirst(pair, rest, ';');
  }

  /** A header holding one part reads as that part's entry alone. */
  lemma PairCookieMap(pair: string)
    requires ';' !in pair && WebChatApi.CookieEntry(pair).Some?
    ensures WebChatApi.CookieMap(Split(pair, ';')) == map[WebChatApi.CookieEntry(pair).value.0 := WebChatApi.CookieEntry(pair).value.1]
  {
    assert Split(pair, ';') == [pair];
    var none: seq<string> := [];
    assert [pair][..0] == none;
    assert WebChatApi.CookieMap(none) == map[];
  }

  lemma NoSemicolon(name: string, value: string)
    requires ';' !in name && ';' !in value
    ensures ';' !in name + "=" + value
  {
    var pair := name + "=" + value;
    forall i | 0 <= i < |pair| ensures pair[i] != ';' {
      if i < |name| { assert pair[i] == name[i]; }
      else if i > |name| { assert pair[i] == value[i - |name| - 1]; }
    }
  }

  /** "name=value" is one cookie entry with that name and value. */
  lemma PairEntry(name: string, value: string)
    requires name != [] && !IsWhitespace(name[0]) && '=' !in name
    requires value == [] || !IsWhitespace(value[|value| - 1])
    ensures WebChatApi.CookieEntry(name + "=" + value) == Some((name, value))
  {
    var pair := name + "=" + value;
    TrimOfPair(name, value);
    FirstEquals(name, value);
    EntryOfTrimmed(pair, |name|);
    PairHalves(name, value);
  }

  lemma SplitFirst(a: string, b: string, c: char)
    requires c !in a
    ensures Split(a + [c] + b, c)[0] == a
  {
    var s := a + [c] + b;
    assert s[|a|] == c;
    assert IndexOf(s, c) == |a| by { IndexOfAfter(a, [c] + b, c); }
    assert s[..|a|] == a;
  }

  lemma {:induction false} IndexOfAfter(a: string, b: string, c: char)
    requires c !in a && b != [] && b[0] == c
    ensures IndexOf(a + b, c) == |a|
    decreases |a|
  {
    if a != [] {
      assert (a + b)[1..] == a[1..] + b;
      IndexOfAfter(a[1..], b, c);
    } else {
      assert a + b == b;
    }
  }

  lemma FirstEquals(name: string, value: string)
    requires '=' !in name
    ensures IndexOf(name + "=" + value, '=') == |name|
  {
    assert name + "=" + value == name + ("=" + value);
    IndexOfAfter(name, "=" + value, '=');
  }

  lemma EntryOfTrimmed(t: string, k: int)
    requires Trim(t) == t && k == IndexOf(t, '=') && k > 0
    ensures WebChatApi.CookieEntry(t) == Some((t[..k], t[k + 1..]))
  {
    WebChatApi.TrimmedEntrySplitsAtFirstEquals(t);
  }

  lemma PairHalves(name: string, value: string)
    ensures (name + "=" + value)[..|name|] == name
    ensures (name + "=" + value)[|name| + 1..] == value
  {
  }

  lemma TrimOfPair(name: string, value: string)
    requires name != [] && !IsWhitespace(name[0])
    requires value == [] || !IsWhitespace(value[|value| - 1])
    ensures Trim(name + "=" + value) == name + "=" + value
  {
    var pair := name + "=" + value;
    assert pair[0] == name[0];
    assert pair[|pair| - 1] == if value == [] then '=' else value[|value| - 1];
    TrimOfTrimmed(pair);
  }

  // ---------------------------------------------------------------------
  // Login states
  // ---------------------------------------------------------------------

  datatype WebOAuthState = WebOAuthState(nonce: string, createdAt: int)

  /** A stored state; entries in the key-value store carry their expiry time. */
  datatype StoredState = StoredState(payload: WebOAuthState, expiresAt: Option<int>)

  /** What a lookup at time `now` finds: an expired key-value entry has been evicted. */
  function LiveState(states: map<string, StoredState>, key: string, now: int): (r: Option<WebOAuthState>)
    ensures r.Some? <==> key in states && (states[key].expiresAt.None? || now < states[key].expiresAt.value)
    ensures r.Some? ==> r.value == states[key].payload
  {
    if key in states && (states[key].expiresAt.None? || now < states[key].expiresAt.value)
    then Some(states[key].payload) else None
  }

  /**
   * The login-state store: the key-value store when it is configured
   * (keys carry a prefix and a five-minute expiry), otherwise the
   * in-memory map keyed by the bare state.
   */
  class StateStore {
    const useRedis: bool
    var states: map<string, StoredState>

    constructor (useRedis: bool)
      ensures this.useRedis == useRedis && states == map[]
    {
      this.useRedis := useRedis;
      states := map[];
    }

    function Key(state: string): (k: string)
      ensures useRedis ==> k == StatePrefix + state
      ensures !useRedis ==> k == state
    {
      if useRedis then StatePrefix + state else state
    }

    /** `createState()` with the two random ids and the clock passed in. */
    method CreateState(nonce: string, state: string, now: int) returns (r: string)
      modifies this
      ensures r == state
      ensures states == old(states)[Key(state) :=
        StoredState(WebOAuthState(nonce, now), if useRedis then Some(now + StateTtlSeconds * 1000) else None)]
      ensures LiveState(states, Key(state), now) == Some(WebOAuthState(nonce, now))
    {
      var payload := WebOAuthState(nonce, now);
      if useRedis {
        states := states[StatePrefix + state := StoredState(payload, Some(now + StateTtlSeconds * 1000))];
      } else {
        states := states[state := StoredState(payload, None)];
      }
      r := state;
    }

    /**
     * `consumeState(state)`: the live payload, removed so that a second
     * consume finds nothing. The memory path deletes even when nothing was
     * stored; the key-value path deletes only what it found, and an expired
     * entry is already gone there.
     */
    method ConsumeState(state: Option<string>, now: int) returns (r: Option<WebOAuthState>)
      modifies this
      ensures state.None? || state.value == "" ==> r.None? && states == old(states)
      ensures state.Some? && state.value != "" ==>
        r == LiveState(old(states), Key(state.value), now) && states == old(states) - {Key(state.value)}
      ensures state.Some? && state.value != "" ==> LiveState(states, Key(state.value), now).None?
    {
      if state.None? || state.value == "" {
        return None;
      }
      if useRedis {
        var key := StatePrefix + state.value;
        var value := LiveState(states, key, now);
        if value.None? {
          states := states - {key};
          return None;
        }
        states := states - {key};
        r := value;
      } else {
        r := LiveState(states, state.value, now);
        states := states - {state.value};
      }
    }
  }

  // ---------------------------------------------------------------------
  // Identity from the token response
  // ---------------------------------------------------------------------

  /** `payload?.access_token`, trimmed, when it is a string that is not blank. */
  function AccessToken(payload: Json): (r: Option<string>)
    ensures r.Some? <==> GetString(payload, "access_token").Some? && Trim(GetString(payload, "access_token").value) != ""
    ensures r.Some? ==> r.value == Trim(GetString(payload, "access_token").value)
    ensures r.Some? ==> r.value != "" && Trim(r.value) == r.value
  {
    var t := GetString(payload, "access_token");
    if t.Some? && Trim(t.value) != "" then
      TrimOfTrimmed(Trim(t.value));
      Some(Trim(t.value))
    else None
  }

  /** `payload?.athlete` */
  function Athlete(payload: Json): Option<Json> {
    Get(payload, "athlete")
  }

  /** `payload?.athlete?.id` */
  function AthleteIdValue(payload: Json): Option<Json> {
    var a := Athlete(payload);
    if a.Some? then Get(a.value, "id") else None
  }

  /** `String(payload.athlete.id)` when the id is neither undefined nor null. */
  function AthleteId(payload: Json): (r: Option<string>)
    ensures r.Some? <==> AthleteIdValue(payload).Some? && !AthleteIdValue(payload).value.JNull?
    ensures r.Some? ==> r.value == JsString(AthleteIdValue(payload).value)
  {
    var id := AthleteIdValue(payload);
    if id.Some? && !id.value.JNull? then Some(JsString(id.value)) else None
  }

  /**
   * `extractIdentity(payload)`: fails unless there is a non-blank access
   * token and an athlete id whose string form is not empty; athleteName is
   * kept only when it is a string, scope defaults to "" and tokenType to
   * "Bearer".
   */
  function ExtractIdentity(payload: Json, now: int): (r: Option<IntervalsIdentity>)
    ensures r.Some? <==> AccessToken(payload).Some? && AthleteId(payload).Some? && AthleteId(payload).value != ""
  {
    match (AccessToken(payload), AthleteId(payload))
    case (Some(token), Some(id)) =>
      if id == "" then None
      else
        var a := Athlete(payload);
        Some(IntervalsIdentity(
          id,
          if a.Some? then GetString(a.value, "name") else None,
          token,
          Some(GetString(payload, "scope").GetOr("")),
          Some(GetString(payload, "token_type").GetOr("Bearer")),
          now))
    case _ => None
  }

  lemma ExtractIdentityFields(payload: Json, now: int)
    requires ExtractIdentity(payload, now).Some?
    ensures var i := ExtractIdentity(payload, now).value;
      && AccessToken(payload) == Some(i.accessToken)
      && AthleteId(payload) == Some(i.athleteId)
      && i.updatedAt == now
      && i.scope == Some(GetString(payload, "scope").GetOr(""))
      && i.tokenType == Some(GetString(payload, "token_type").GetOr("Bearer"))
      && i.athleteName == (if Athlete(payload).Some? then GetString(Athlete(payload).value, "name") else None)
  {
  }

  /** The athlete object of a token response. */
  function AthleteObject(i: IntervalsIdentity): Json {
    if i.athleteName.Some? then JObj([("id", JStr(i.athleteId)), ("name", JStr(i.athleteName.value))])
    else JObj([("id", JStr(i.athleteId))])
  }

  /** The token response Intervals sends for an identity. */
  function TokenResponse(i: IntervalsIdentity): Json
    requires i.scope.Some? && i.tokenType.Some?
  {
    JObj([("access_token", JStr(i.accessToken)), ("token_type", JStr(i.tokenType.value)),
          ("scope", JStr(i.scope.value)), ("athlete", AthleteObject(i))])
  }

  lemma TokenResponseFields(i: IntervalsIdentity)
    requires i.scope.Some? && i.tokenType.Some?
    ensures GetString(TokenResponse(i), "access_token") == Some(i.accessToken)
    ensures GetString(TokenResponse(i), "token_type") == i.tokenType
    ensures GetString(TokenResponse(i), "scope") == i.scope
    ensures Athlete(TokenResponse(i)) == Some(AthleteObject(i))
  {
    var fs := TokenResponse(i).fields;
    assert FieldLookup(fs[3..], "athlete") == Some(AthleteObject(i));
    assert FieldLookup(fs[2..], "athlete") == Some(AthleteObject(i));
    assert FieldLookup(fs[1..], "athlete") == Some(AthleteObject(i));
    assert FieldLookup(fs[2..], "scope") == Some(JStr(i.scope.value));
    assert FieldLookup(fs[1..], "scope") == Some(JStr(i.scope.value));
  }

  lemma AthleteObjectFields(i: IntervalsIdentity)
    ensures Get(AthleteObject(i), "id") == Some(JStr(i.athleteId))
    ensures GetString(AthleteObject(i), "name") == i.athleteName
  {
    if i.athleteName.Some? {
      var fs := AthleteObject(i).fields;
      assert FieldLookup(fs[1..], "name") == Some(JStr(i.athleteName.value));
    }
  }

  /** Reading the identity back out of its own token response gives the identity. */
  lemma ExtractTokenResponse(i: IntervalsIdentity)
    requires i.scope.Some? && i.tokenType.Some?
    requires i.athleteId != "" && i.accessToken != ""
    requires !IsWhitespace(i.accessToken[0]) && !IsWhitespace(i.accessToken[|i.accessToken| - 1])
    ensures ExtractIdentity(TokenResponse(i), i.updatedAt) == Some(i)
  {
    var p := TokenResponse(i);
    TokenResponseFields(i);
    AthleteObjectFields(i);
    TrimOfTrimmed(i.accessToken);
    assert AccessToken(p) == Some(i.accessToken);
    assert AthleteIdValue(p) == Some(JStr(i.athleteId));
    assert AthleteId(p) == Some(i.athleteId);
    ExtractIdentityFields(p, i.updatedAt);
  }

  /** A response without a usable token or athlete id fails, whatever else it holds. */
  lemma MissingTokenFails(payload: Json, now: int)
    requires GetString(payload, "access_token").None? || Trim(GetString(payload, "access_token").value) == ""
    ensures ExtractIdentity(payload, now).None?
  {
  }

  // ---------------------------------------------------------------------
  // Handlers
  // ---------------------------------------------------------------------

  /** An HTML page with a title and status, or a 302 redirect. */
  datatype Response =
    | Page(status: nat, title: string)
    | Redirect(endpoint: string, query: seq<(string, string)>, setCookie: Option<string>)

  const MissingConfiguration: string := "Dolor - Missing configuration"
  const LinkExpired: string := "Dolor - Link expired"
  const SignInCanceled: string := "Dolor - Sign in canceled"
  const MissingCode: string := "Dolor - Missing authorization code"
  const SignInFailed: string := "Dolor - Sign in failed"

  /** The query of the authorize redirect. */
  function AuthorizeQuery(baseUrl: string, clientId: string, state: string): seq<(string, string)> {
    [("client_id", clientId), ("redirect_uri", baseUrl + "/auth/web/callback"), ("scope", Scopes), ("state", state)]
  }

  /**
   * `handleWebLoginRequest`: 500 without a base URL or client id; otherwise
   * a fresh state is stored and the browser is sent to the authorize page.
   */
  method HandleWebLoginRequest(store: StateStore, publicBaseUrl: Option<string>, clientId: Option<string>,
                               nonce: string, state: string, now: int) returns (resp: Response)
    modifies store
    ensures var b := NormalizeBaseUrl(publicBaseUrl);
      !Configured(b) || clientId.None? || clientId.value == "" ==>
        resp == Page(500, MissingConfiguration) && store.states == old(store.states)
    ensures var b := NormalizeBaseUrl(publicBaseUrl);
      Configured(b) && clientId.Some? && clientId.value != "" ==>
        && resp == Redirect(AuthorizeUrl, AuthorizeQuery(b.value, clientId.value, state), None)
        && LiveState(store.states, store.Key(state), now) == Some(WebOAuthState(nonce, now))
        && store.states == old(store.states)[store.Key(state) :=
             StoredState(WebOAuthState(nonce, now), if store.useRedis then Some(now + StateTtlSeconds * 1000) else None)]
  {
    var baseUrl := NormalizeBaseUrl(publicBaseUrl);
    if !Configured(baseUrl) || clientId.None? || clientId.value == "" {
      return Page(500, MissingConfiguration);
    }
    var s := store.CreateState(nonce, state, now);
    resp := Redirect(AuthorizeUrl, AuthorizeQuery(baseUrl.value, clientId.value, s), None);
  }

  /**
   * The identity a code yields: `exchangeCode` throws for a response it
   * cannot parse or one that is falsy (modelled by `exchange` returning
   * None or a falsy value), then `extractIdentity` may throw.
   */
  function Exchanged(exchange: string -> Option<Json>, code: string, now: int): Option<IntervalsIdentity> {
    var payload := exchange(code);
    if payload.None? || !Truthy(payload.value) then None else ExtractIdentity(payload.value, now)
  }

  /**
   * The callback's answer, check by check: configuration (500), the state
   * (400, expired), the error parameter (400, canceled), the code (400),
   * the exchange (502); then a redirect to the app with the session cookie.
   */
  function CallbackResponse(baseUrl: Option<string>, state: Option<WebOAuthState>, errorParam: Option<string>,
                            code: Option<string>, identity: Option<IntervalsIdentity>, sessionId: string): (r: Response)
    ensures r.Redirect? <==>
      Configured(baseUrl) && state.Some? && (errorParam.None? || errorParam.value == "")
      && code.Some? && code.value != "" && identity.Some?
    ensures r.Page? && r.status == 500 <==> !Configured(baseUrl)
    ensures Configured(baseUrl) && state.Some? && errorParam.Some? && errorParam.value != "" ==> r == Page(400, SignInCanceled)
    ensures r.Redirect? ==>
      r.endpoint == baseUrl.value && r.query == [] && r.setCookie == Some(SetCookie(CookieName, sessionId, SessionCookieMaxAge))
  {
    if !Configured(baseUrl) then Page(500, MissingConfiguration)
    else if state.None? then Page(400, LinkExpired)
    else if errorParam.Some? && errorParam.value != "" then Page(400, SignInCanceled)
    else if code.None? || code.value == "" then Page(400, MissingCode)
    else if identity.None? then Page(502, SignInFailed)
    else Redirect(baseUrl.value, [], Some(SetCookie(CookieName, sessionId, SessionCookieMaxAge)))
  }

  /** The session cookie of a successful callback reads back as the new session's id. */
  lemma CallbackCookieNamesSession(baseUrl: Option<string>, state: Option<WebOAuthState>, errorParam: Option<string>,
                                   code: Option<string>, identity: Option<IntervalsIdentity>, sessionId: string)
    requires CallbackResponse(baseUrl, state, errorParam, code, identity, sessionId).Redirect?
    requires ';' !in sessionId && (sessionId == [] || !IsWhitespace(sessionId[|sessionId| - 1]))
    ensures var c := CallbackResponse(baseUrl, state, errorParam, code, identity, sessionId).setCookie.value;
      WebChatApi.CookieMap(Split(Split(c, ';')[0], ';')) == map[CookieName := sessionId]
  {
    CookieReadsBack(CookieName, sessionId, SessionCookieMaxAge);
  }

  /**
   * `handleWebCallbackRequest`. The state is consumed as soon as the base
   * URL is known, so an error or a missing code still spends it; the user
   * and the session are written only on success.
   */
  method HandleWebCallbackRequest(store: StateStore, data: DataStore, publicBaseUrl: Option<string>,
                                  stateParam: Option<string>, errorParam: Option<string>, code: Option<string>,
                                  exchange: string -> Option<Json>, newUserId: string, sessionId: string, now: int)
    returns (resp: Response)
    modifies store, data
    ensures var b := NormalizeBaseUrl(publicBaseUrl);
      var state := if Configured(b) && stateParam.Some? && stateParam.value != ""
                   then LiveState(old(store.states), store.Key(stateParam.value), now) else None;
      var identity := if code.Some? && code.value != "" then Exchanged(exchange, code.value, now) else None;
      resp == CallbackResponse(b, state, errorParam, code, identity, sessionId)
    ensures !Configured(NormalizeBaseUrl(publicBaseUrl)) || stateParam.None? || stateParam.value == "" ==>
      store.states == old(store.states)
    ensures Configured(NormalizeBaseUrl(publicBaseUrl)) && stateParam.Some? && stateParam.value != "" ==>
      store.states == old(store.states) - {store.Key(stateParam.value)}
    ensures resp.Page? ==>
      data.users == old(data.users) && data.sessions == old(data.sessions) && data.userByIntervals == old(data.userByIntervals)
    ensures resp.Redirect? ==>
      sessionId in data.sessions && data.sessions[sessionId].userId in data.users && data.users[data.sessions[sessionId].userId].intervals == Exchanged(exchange, code.value, now)
    ensures resp.Redirect? ==>
      var identity := Exchanged(exchange, code.value, now).value;
      var mapped := if identity.athleteId in old(data.userByIntervals) then Some(old(data.userByIntervals)[identity.athleteId]) else None;
      var uid := if mapped.Some? && mapped.value != "" && mapped.value in old(data.users) then old(data.users)[mapped.value].id
                 else if mapped.Some? then mapped.value else newUserId;
      uid in data.users
      && data.users == old(data.users)[uid := data.users[uid]]
      && data.users[uid].updatedAt == now
      && data.userByIntervals == old(data.userByIntervals)[identity.athleteId := uid]
      && data.sessions == old(data.sessions)[sessionId := WebSession(sessionId, uid, now, now + SessionTtlSeconds * 1000)]
    ensures unchanged(data`userThreads, data`threads, data`telegramChatMap, data`telegramUserMap)
  {
    var baseUrl := NormalizeBaseUrl(publicBaseUrl);
    if !Configured(baseUrl) {
      return Page(500, MissingConfiguration);
    }
    var state := store.ConsumeState(stateParam, now);
    if state.None? {
      return Page(400, LinkExpired);
    }
    if errorParam.Some? && errorParam.value != "" {
      return Page(400, SignInCanceled);
    }
    if code.None? || code.value == "" {
      return Page(400, MissingCode);
    }
    var identity := Exchanged(exchange, code.value, now);
    if identity.None? {
      return Page(502, SignInFailed);
    }
    var user := data.UpsertUserFromIntervals(identity.value, newUserId, now);
    var session := data.CreateWebSession(user.id, sessionId, now);
    resp := Redirect(baseUrl.value, [], Some(SetCookie(CookieName, session.id, SessionCookieMaxAge)));
  }
}
