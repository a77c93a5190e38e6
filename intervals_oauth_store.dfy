/**
 * One-shot connect tokens, OAuth states and per-Telegram-user credentials
 * kept in the key-value store (lib/intervals-oauth-store.ts), and the
 * fallback UUID generator behind the tokens. Random bytes and the clock
 * are parameters.
 */
module IntervalsOAuthStore {
  import opened Wrappers
  import opened Strings
  import opened Json
  import opened Kv

  const ConnectTokenPrefix: string := "intervals:connect:"
  const ConnectTokenTtlSeconds: nat := 15 * 60
  const OAuthStatePrefix: string := "intervals:oauth-state:"
  const OAuthStateTtlSeconds: nat := 2 * 60
  const TelegramTokenPrefix: string := "intervals:telegram:"

  // ---------------------------------------------------------------------
  // Fallback UUID: version 4 and the RFC 4122 variant (section 4.4 and the
  // field layout of section 4.1 of RFC 4122), rendered 8-4-4-4-12.
  // ---------------------------------------------------------------------

  /** `bytes[6] = (bytes[6] & 0x0f) | 0x40; bytes[8] = (bytes[8] & 0x3f) | 0x80` */
  function PatchVersion(bytes: seq<bv8>): (r: seq<bv8>)
    requires |bytes| == 16
    ensures |r| == 16
    ensures r[6] >> 4 == 4 && r[6] & 0x0f == bytes[6] & 0x0f
    ensures r[8] >> 6 == 2 && r[8] & 0x3f == bytes[8] & 0x3f
    ensures forall i :: 0 <= i < 16 && i != 6 && i != 8 ==> r[i] == bytes[i]
  {
    bytes[6 := (bytes[6] & 0x0f) | 0x40][8 := (bytes[8] & 0x3f) | 0x80]
  }

  predicate IsLowerHex(c: char) {
    '0' <= c <= '9' || 'a' <= c <= 'f'
  }

  function HexDigit(n: nat): (c: char)
    requires n < 16
    ensures IsLowerHex(c)
  {
    if n < 10 then ('0' as int + n) as char else ('a' as int + n - 10) as char
  }

  function HexValue(c: char): (n: nat)
    requires IsLowerHex(c)
    ensures n < 16
  {
    if c <= '9' then c as int - '0' as int else c as int - 'a' as int + 10
  }

  lemma HexDigitValue(n: nat)
    requires n < 16
    ensures HexValue(HexDigit(n)) == n
  {
  }

  /** `value.toString(16).padStart(2, "0")` */
  function ToHex(b: bv8): (r: string)
    ensures |r| == 2 && IsLowerHex(r[0]) && IsLowerHex(r[1])
  {
    [HexDigit(b as int / 16), HexDigit(b as int % 16)]
  }

  /** `Array.from(bytes, toHex).join("")` */
  function HexJoin(bs: seq<bv8>): (r: string)
    ensures |r| == 2 * |bs|
    ensures forall i :: 0 <= i < |r| ==> IsLowerHex(r[i])
  {
    if bs == [] then [] else ToHex(bs[0]) + HexJoin(bs[1..])
  }

  lemma {:induction false} HexJoinAppend(a: seq<bv8>, b: seq<bv8>)
    ensures HexJoin(a + b) == HexJoin(a) + HexJoin(b)
  {
    if a == [] {
      assert a + b == b;
    } else {
      assert (a + b)[0] == a[0];
      assert (a + b)[1..] == a[1..] + b;
      HexJoinAppend(a[1..], b);
    }
  }

  /** Reads two hex digits per byte. */
  function ParseHex(s: string): seq<bv8>
    requires |s| % 2 == 0
    requires forall i :: 0 <= i < |s| ==> IsLowerHex(s[i])
  {
    if s == [] then [] else [(HexValue(s[0]) * 16 + HexValue(s[1])) as bv8] + ParseHex(s[2..])
  }

  /** Reading the hex back gives the bytes: the rendering loses nothing. */
  lemma {:induction false} ParseHexJoin(bs: seq<bv8>)
    ensures ParseHex(HexJoin(bs)) == bs
  {
    if bs != [] {
      var s := HexJoin(bs);
      HexJoinHead(bs);
      assert s[0] == ToHex(bs[0])[0] && s[1] == ToHex(bs[0])[1];
      ToHexValue(bs[0]);
      ParseHexJoin(bs[1..]);
    }
  }

  lemma HexJoinHead(bs: seq<bv8>)
    requires bs != []
    ensures HexJoin(bs)[..2] == ToHex(bs[0]) && HexJoin(bs)[2..] == HexJoin(bs[1..])
  {
  }

  /** The two digits of a byte read back as the byte. */
  lemma ToHexValue(b: bv8)
    ensures (HexValue(ToHex(b)[0]) * 16 + HexValue(ToHex(b)[1])) as bv8 == b
  {
    DigitPairValue(b as int);
  }

  lemma DigitPairValue(n: nat)
    requires n < 256
    ensures HexValue(HexDigit(n / 16)) * 16 + HexValue(HexDigit(n % 16)) == n
  {
    HexDigitValue(n / 16);
    HexDigitValue(n % 16);
  }

  lemma HexJoinInjective(a: seq<bv8>, b: seq<bv8>)
    requires HexJoin(a) == HexJoin(b)
    ensures a == b
  {
    ParseHexJoin(a);
    ParseHexJoin(b);
  }

  /** The `segments.join("-")` layout. */
  function FormatUuid(bytes: seq<bv8>): (r: string)
    requires |bytes| == 16
    ensures |r| == 36
  {
    HexJoin(bytes[0..4]) + "-" + HexJoin(bytes[4..6]) + "-" + HexJoin(bytes[6..8]) + "-"
      + HexJoin(bytes[8..10]) + "-" + HexJoin(bytes[10..16])
  }

  /** The fallback `generateUUID`: fill 16 bytes, patch version and variant, render. */
  method GenerateUuid(random: seq<bv8>) returns (r: string)
    requires |random| == 16
    ensures r == FormatUuid(PatchVersion(random))
  {
    var bytes := new bv8[16];
    var i := 0;
    while i < bytes.Length
      invariant 0 <= i <= 16
      invariant bytes[..i] == random[..i]
    {
      bytes[i] := random[i];
      i := i + 1;
    }
    assert bytes[..] == random;
    bytes[6] := (bytes[6] & 0x0f) | 0x40;
    bytes[8] := (bytes[8] & 0x3f) | 0x80;
    assert bytes[..] == PatchVersion(random);
    r := FormatUuid(bytes[..]);
  }

  /** `s.replace(/-/g, "")` */
  function RemoveHyphens(s: string): (r: string)
    ensures '-' !in r
  {
    if s == [] then [] else (if s[0] == '-' then [] else [s[0]]) + RemoveHyphens(s[1..])
  }

  lemma {:induction false} RemoveHyphensAppend(a: string, b: string)
    ensures RemoveHyphens(a + b) == RemoveHyphens(a) + RemoveHyphens(b)
  {
    if a == [] {
      assert a + b == b;
    } else {
      assert (a + b)[0] == a[0];
      assert (a + b)[1..] == a[1..] + b;
      RemoveHyphensAppend(a[1..], b);
    }
  }

  lemma {:induction false} RemoveHyphensOfHex(s: string)
    requires forall i :: 0 <= i < |s| ==> IsLowerHex(s[i])
    ensures RemoveHyphens(s) == s
  {
    if s != [] {
      RemoveHyphensOfHex(s[1..]);
    }
  }

  /** The token form of a UUID: the 32 hex digits of the patched bytes. */
  function TokenOf(random: seq<bv8>): string
    requires |random| == 16
  {
    RemoveHyphens(FormatUuid(PatchVersion(random)))
  }

  /** The five hex groups of a UUID. */
  lemma UuidGroups(b: seq<bv8>)
    requires |b| == 16
    ensures var u := FormatUuid(b);
      && u[8] == '-' && u[13] == '-' && u[18] == '-' && u[23] == '-'
      && u[..8] == HexJoin(b[0..4]) && u[9..13] == HexJoin(b[4..6]) && u[14..18] == HexJoin(b[6..8])
      && u[19..23] == HexJoin(b[8..10]) && u[24..] == HexJoin(b[10..16])
  {
    GroupLayout(HexJoin(b[0..4]), HexJoin(b[4..6]), HexJoin(b[6..8]), HexJoin(b[8..10]), HexJoin(b[10..16]));
  }

  /** Where the hyphens and the groups of an 8-4-4-4-12 layout sit. */
  lemma GroupLayout(g0: string, g1: string, g2: string, g3: string, g4: string)
    requires |g0| == 8 && |g1| == 4 && |g2| == 4 && |g3| == 4 && |g4| == 12
    ensures var u := g0 + "-" + g1 + "-" + g2 + "-" + g3 + "-" + g4;
      && u[8] == '-' && u[13] == '-' && u[18] == '-' && u[23] == '-'
      && u[..8] == g0 && u[9..13] == g1 && u[14..18] == g2 && u[19..23] == g3 && u[24..] == g4
  {
  }

  /** Hyphens at 8, 13, 18 and 23 and lowercase hex digits everywhere else. */
  lemma UuidShape(b: seq<bv8>)
    requires |b| == 16
    ensures var u := FormatUuid(b);
      && u[8] == '-' && u[13] == '-' && u[18] == '-' && u[23] == '-'
      && forall i :: 0 <= i < 36 && i != 8 && i != 13 && i != 18 && i != 23 ==> IsLowerHex(u[i])
  {
    var u := FormatUuid(b);
    UuidGroups(b);
    forall i | 0 <= i < 36 && i != 8 && i != 13 && i != 18 && i != 23
      ensures IsLowerHex(u[i])
    {
      if i < 8 { assert u[i] == u[..8][i]; }
      else if i < 13 { assert u[i] == u[9..13][i - 9]; }
      else if i < 18 { assert u[i] == u[14..18][i - 14]; }
      else if i < 23 { assert u[i] == u[19..23][i - 19]; }
      else { assert u[i] == u[24..][i - 24]; }
    }
  }

  /** The first hex digit of a two-byte group is the high nibble of its first byte. */
  lemma FirstDigitOfPair(x: bv8, y: bv8)
    ensures HexJoin([x, y])[0] == HexDigit(x as int / 16)
  {
    assert HexJoin([x, y]) == ToHex(x) + HexJoin([y]);
  }

  /** The version digit is '4' and the variant digit one of 8, 9, a, b. */
  lemma UuidVersionDigits(random: seq<bv8>)
    requires |random| == 16
    ensures var u := FormatUuid(PatchVersion(random));
      && u[14] == '4' && (u[19] == '8' || u[19] == '9' || u[19] == 'a' || u[19] == 'b')
  {
    var b := PatchVersion(random);
    VersionPositions(b);
    NibbleFacts(b[6], b[8]);
  }

  /** Digit 14 is the high nibble of byte 6 and digit 19 the high nibble of byte 8. */
  lemma VersionPositions(b: seq<bv8>)
    requires |b| == 16
    ensures FormatUuid(b)[14] == HexDigit(b[6] as int / 16)
    ensures FormatUuid(b)[19] == HexDigit(b[8] as int / 16)
  {
    var u := FormatUuid(b);
    UuidGroups(b);
    assert b[6..8] == [b[6], b[7]] && b[8..10] == [b[8], b[9]];
    FirstDigitOfPair(b[6], b[7]);
    FirstDigitOfPair(b[8], b[9]);
    assert u[14] == u[14..18][0];
    assert u[19] == u[19..23][0];
  }

  lemma NibbleFacts(x: bv8, y: bv8)
    requires x >> 4 == 4 && y >> 6 == 2
    ensures x as int / 16 == 4
    ensures 8 <= y as int / 16 <= 11
  {
    assert x >> 4 == (x as int / 16) as bv8;
    assert y >> 6 == (y as int / 64) as bv8;
  }

  lemma DropHyphen(x: string, y: string)
    ensures RemoveHyphens(x + "-" + y) == RemoveHyphens(x) + RemoveHyphens(y)
  {
    RemoveHyphensAppend(x + "-", y);
    RemoveHyphensAppend(x, "-");
  }

  /** The hex of `b[..n]` followed by the hex of the next group is the hex of the longer prefix. */
  lemma HexPrefix(b: seq<bv8>, m: nat, n: nat)
    requires m <= n <= |b|
    ensures HexJoin(b[..m]) + HexJoin(b[m..n]) == HexJoin(b[..n])
  {
    assert b[..m] + b[m..n] == b[..n];
    HexJoinAppend(b[..m], b[m..n]);
  }

  /** Removing the hyphens leaves the 32 hex digits of the bytes. */
  lemma UuidToken(b: seq<bv8>)
    requires |b| == 16
    ensures RemoveHyphens(FormatUuid(b)) == HexJoin(b)
  {
    var s0, s1, s2, s3, s4 := HexJoin(b[0..4]), HexJoin(b[4..6]), HexJoin(b[6..8]), HexJoin(b[8..10]), HexJoin(b[10..16]);
    RemoveHyphensOfHex(s0);
    RemoveHyphensOfHex(s1);
    RemoveHyphensOfHex(s2);
    RemoveHyphensOfHex(s3);
    RemoveHyphensOfHex(s4);
    DropHyphens(s0, s1, s2, s3, s4);
    HexJoinGroups(b);
  }

  /** Removing the hyphens of a hyphen-joined layout leaves its groups, when they hold none. */
  lemma DropHyphens(g0: string, g1: string, g2: string, g3: string, g4: string)
    requires RemoveHyphens(g0) == g0 && RemoveHyphens(g1) == g1 && RemoveHyphens(g2) == g2
    requires RemoveHyphens(g3) == g3 && RemoveHyphens(g4) == g4
    ensures RemoveHyphens(g0 + "-" + g1 + "-" + g2 + "-" + g3 + "-" + g4) == g0 + g1 + g2 + g3 + g4
  {
    var p1 := g0 + "-" + g1;
    DropHyphen(g0, g1);
    var p2 := p1 + "-" + g2;
    DropHyphen(p1, g2);
    var p3 := p2 + "-" + g3;
    DropHyphen(p2, g3);
    DropHyphen(p3, g4);
  }

  /** The hex of the 16 bytes is the hex of its five groups, in order. */
  lemma HexJoinGroups(b: seq<bv8>)
    requires |b| == 16
    ensures HexJoin(b) == HexJoin(b[0..4]) + HexJoin(b[4..6]) + HexJoin(b[6..8]) + HexJoin(b[8..10]) + HexJoin(b[10..16])
  {
    assert b[0..4] == b[..4];
    HexPrefix(b, 4, 6);
    HexPrefix(b, 6, 8);
    HexPrefix(b, 8, 10);
    HexPrefix(b, 10, 16);
    assert b[..16] == b;
  }

  lemma UuidLayout(random: seq<bv8>)
    requires |random| == 16
    ensures TokenOf(random) == HexJoin(PatchVersion(random))
    ensures |TokenOf(random)| == 32
  {
    UuidToken(PatchVersion(random));
  }

  /** Distinct patched bytes give distinct tokens. */
  lemma TokenInjective(r1: seq<bv8>, r2: seq<bv8>)
    requires |r1| == 16 && |r2| == 16
    requires PatchVersion(r1) != PatchVersion(r2)
    ensures TokenOf(r1) != TokenOf(r2)
  {
    UuidLayout(r1);
    UuidLayout(r2);
    if TokenOf(r1) == TokenOf(r2) {
      HexJoinInjective(PatchVersion(r1), PatchVersion(r2));
    }
  }

  // ---------------------------------------------------------------------
  // Stored payloads
  // ---------------------------------------------------------------------

  /** `TelegramConnectPayload`; an absent username is not stored. */
  datatype ConnectPayload = ConnectPayload(telegramUserId: int, telegramUsername: Option<string>)

  function OptionalString(name: string, v: Option<string>): seq<(string, Json)> {
    if v.Some? then [(name, JStr(v.value))] else []
  }

  function EncodeConnect(p: ConnectPayload): Json {
    JObj([("telegramUserId", JNum(p.telegramUserId))] + OptionalString("telegramUsername", p.telegramUsername))
  }

  /** `{ ...payload, createdAt }` */
  function EncodeOAuthState(p: ConnectPayload, createdAt: string): Json {
    JObj(EncodeConnect(p).fields + [("createdAt", JStr(createdAt))])
  }

  function DecodeConnect(v: Json): Option<ConnectPayload> {
    match Get(v, "telegramUserId")
    case Some(JNum(id)) => Some(ConnectPayload(id, GetString(v, "telegramUsername")))
    case _ => None
  }

  /** A stored connect payload or OAuth state record reads back as the payload. */
  lemma DecodeEncodeConnect(p: ConnectPayload, createdAt: string)
    ensures DecodeConnect(EncodeConnect(p)) == Some(p)
    ensures DecodeConnect(EncodeOAuthState(p, createdAt)) == Some(p)
    ensures GetString(EncodeOAuthState(p, createdAt), "createdAt") == Some(createdAt)
  {
    var fs := EncodeConnect(p).fields;
    assert fs + [] == fs;
    ConnectFields(p, []);
    var stamp := [("createdAt", JStr(createdAt))];
    assert |"createdAt"| != |"telegramUserId"| && |"createdAt"| != |"telegramUsername"|;
    ConnectFields(p, stamp);
    var gs := fs + stamp;
    FieldLookupFirst(gs, |gs| - 1);
  }

  /** The encoded payload followed by fields of other names decodes as the payload. */
  lemma ConnectFields(p: ConnectPayload, extra: seq<(string, Json)>)
    requires FieldLookup(extra, "telegramUsername").None?
    ensures DecodeConnect(JObj(EncodeConnect(p).fields + extra)) == Some(p)
  {
    var fields := EncodeConnect(p).fields + extra;
    FieldLookupFirst(fields, 0);
    assert "telegramUserId" != "telegramUsername" by {
      assert |"telegramUserId"| != |"telegramUsername"|;
    }
    if p.telegramUsername.Some? {
      FieldLookupFirst(fields, 1);
    } else {
      FieldLookupAppend(EncodeConnect(p).fields, extra, "telegramUsername");
    }
  }

  /** `TelegramIntervalsCredential` */
  datatype Credential = Credential(
    telegramUserId: int, telegramUsername: Option<string>, athleteId: string,
    athleteName: Option<string>, accessToken: string, scope: string,
    tokenType: string, updatedAt: string)

  /** The stored credential record; the optional fields come last. */
  function EncodeCredential(c: Credential): Json {
    JObj(CredentialFixed(c) + OptionalString("telegramUsername", c.telegramUsername)
      + OptionalString("athleteName", c.athleteName))
  }

  function CredentialFixed(c: Credential): seq<(string, Json)> {
    [("athleteId", JStr(c.athleteId)), ("accessToken", JStr(c.accessToken)), ("scope", JStr(c.scope)),
     ("tokenType", JStr(c.tokenType)), ("updatedAt", JStr(c.updatedAt)), ("telegramUserId", JNum(c.telegramUserId))]
  }

  /** A stored credential reads back with the athlete id, token and scope the webhook compares and copies. */
  lemma CredentialFields(c: Credential)
    ensures GetString(EncodeCredential(c), "athleteId") == Some(c.athleteId)
    ensures GetString(EncodeCredential(c), "accessToken") == Some(c.accessToken)
    ensures GetString(EncodeCredential(c), "scope") == Some(c.scope)
  {
    var fields := EncodeCredential(c).fields;
    assert fields[0] == ("athleteId", JStr(c.athleteId));
    assert fields[1] == ("accessToken", JStr(c.accessToken));
    assert fields[2] == ("scope", JStr(c.scope));
    assert "athleteId" != "accessToken" && "athleteId" != "scope" && "accessToken" != "scope" by {
      assert |"athleteId"| != |"accessToken"| && |"athleteId"| != |"scope"| && |"accessToken"| != |"scope"|;
    }
    LeadingFields(fields, "athleteId", "accessToken", "scope");
  }

  /** The first three fields, under distinct names, are found by their names. */
  lemma LeadingFields(fields: seq<(string, Json)>, k0: string, k1: string, k2: string)
    requires |fields| >= 3 && fields[0].0 == k0 && fields[1].0 == k1 && fields[2].0 == k2
    requires k0 != k1 && k0 != k2 && k1 != k2
    ensures FieldLookup(fields, k0) == Some(fields[0].1)
    ensures FieldLookup(fields, k1) == Some(fields[1].1)
    ensures FieldLookup(fields, k2) == Some(fields[2].1)
  {
    FieldLookupFirst(fields, 0);
    FieldLookupFirst(fields, 1);
    FieldLookupFirst(fields, 2);
  }

  /** An athlete name reads back when stored and is absent otherwise. */
  lemma CredentialAthleteName(c: Credential)
    ensures GetString(EncodeCredential(c), "athleteName") == c.athleteName
  {
    var f := CredentialFixed(c);
    var u := OptionalString("telegramUsername", c.telegramUsername);
    var n := OptionalString("athleteName", c.athleteName);
    assert EncodeCredential(c).fields == (f + u) + n;
    assert FieldLookup(f, "athleteName").None? by {
      assert "athleteName"[1] != "accessToken"[1];
      assert |"athleteName"| != |"athleteId"| && |"athleteName"| != |"scope"|;
      assert |"athleteName"| != |"tokenType"| && |"athleteName"| != |"updatedAt"|;
      assert |"athleteName"| != |"telegramUserId"|;
    }
    assert FieldLookup(u, "athleteName").None? by {
      assert |"athleteName"| != |"telegramUsername"|;
    }
    FieldLookupAppend(f, u, "athleteName");
    FieldLookupAppend(f + u, n, "athleteName");
  }

  class OAuthStore {
    const redis: KvStore

    constructor (store: KvStore)
      ensures redis == store
    {
      redis := store;
    }

    /** `createTelegramConnectToken`: a fresh token, the payload stored for 900 s. */
    method CreateTelegramConnectToken(payload: ConnectPayload, random: seq<bv8>) returns (token: string)
      requires |random| == 16
      modifies redis
      ensures token == TokenOf(random) && |token| == 32
      ensures redis.data == old(redis.data)[ConnectTokenPrefix + token :=
        Entry(EncodeConnect(payload), Some(ConnectTokenTtlSeconds))]
    {
      var uuid := GenerateUuid(random);
      token := RemoveHyphens(uuid);
      UuidLayout(random);
      redis.data := redis.data[ConnectTokenPrefix + token := Entry(EncodeConnect(payload), Some(ConnectTokenTtlSeconds))];
    }

    /** The get-then-delete of both `consume*` functions: a truthy record is returned once and removed. */
    method ConsumeKey(key: string) returns (r: Option<Json>)
      modifies redis
      ensures key in old(redis.data) && Truthy(old(redis.data)[key].value) ==>
        r == Some(old(redis.data)[key].value) && redis.data == old(redis.data) - {key}
      ensures !(key in old(redis.data) && Truthy(old(redis.data)[key].value)) ==>
        r.None? && redis.data == old(redis.data)
    {
      if key in redis.data && Truthy(redis.data[key].value) {
        r := Some(redis.data[key].value);
        redis.data := redis.data - {key};
      } else {
        r := None;
      }
    }

    /** `consumeTelegramConnectToken`: an empty token gives null without touching the store. */
    method ConsumeTelegramConnectToken(token: string) returns (r: Option<Json>)
      modifies redis
      ensures token == "" ==> r.None? && redis.data == old(redis.data)
      ensures (token != "" && ConnectTokenPrefix + token in old(redis.data)
        && Truthy(old(redis.data)[ConnectTokenPrefix + token].value)) ==>
        r == Some(old(redis.data)[ConnectTokenPrefix + token].value) && ConnectTokenPrefix + token !in redis.data
      ensures (token != "" && !(ConnectTokenPrefix + token in old(redis.data)
        && Truthy(old(redis.data)[ConnectTokenPrefix + token].value))) ==>
        r.None? && redis.data == old(redis.data)
      ensures redis.data - {ConnectTokenPrefix + token} == old(redis.data) - {ConnectTokenPrefix + token}
    {
      if token == "" {
        return None;
      }
      r := ConsumeKey(ConnectTokenPrefix + token);
    }

    /** `createIntervalsOAuthState`: the payload plus `createdAt`, stored for 120 s. */
    method CreateIntervalsOAuthState(payload: ConnectPayload, random: seq<bv8>, now: string) returns (state: string)
      requires |random| == 16
      modifies redis
      ensures state == TokenOf(random) && |state| == 32
      ensures redis.data == old(redis.data)[OAuthStatePrefix + state :=
        Entry(EncodeOAuthState(payload, now), Some(OAuthStateTtlSeconds))]
    {
      var uuid := GenerateUuid(random);
      state := RemoveHyphens(uuid);
      UuidLayout(random);
      redis.data := redis.data[OAuthStatePrefix + state := Entry(EncodeOAuthState(payload, now), Some(OAuthStateTtlSeconds))];
    }

    /** `consumeIntervalsOAuthState`: null or empty gives null. */
    method ConsumeIntervalsOAuthState(state: Option<string>) returns (r: Option<Json>)
      modifies redis
      ensures state.None? || state.value == "" ==> r.None? && redis.data == old(redis.data)
      ensures (state.Some? && state.value != "" && OAuthStatePrefix + state.value in old(redis.data)
        && Truthy(old(redis.data)[OAuthStatePrefix + state.value].value)) ==>
        r == Some(old(redis.data)[OAuthStatePrefix + state.value].value) && OAuthStatePrefix + state.value !in redis.data
      ensures (state.Some? && state.value != "" && !(OAuthStatePrefix + state.value in old(redis.data)
        && Truthy(old(redis.data)[OAuthStatePrefix + state.value].value))) ==>
        r.None? && redis.data == old(redis.data)
      ensures state.Some? ==>
        redis.data - {OAuthStatePrefix + state.value} == old(redis.data) - {OAuthStatePrefix + state.value}
      ensures state.None? ==> redis.data == old(redis.data)
    {
      if state.None? || state.value == "" {
        return None;
      }
      r := ConsumeKey(OAuthStatePrefix + state.value);
    }

    function CredentialKey(telegramUserId: int): string {
      TelegramTokenPrefix + IntToString(telegramUserId)
    }

    /** `saveTelegramIntervalsCredential`: stored per user with no expiry. */
    method SaveTelegramIntervalsCredential(c: Credential)
      modifies redis
      ensures redis.data == old(redis.data)[CredentialKey(c.telegramUserId) := Entry(EncodeCredential(c), None)]
    {
      redis.data := redis.data[CredentialKey(c.telegramUserId) := Entry(EncodeCredential(c), None)];
    }

    /** `getTelegramIntervalsCredential`: a copy of the stored record, or null. */
    method GetTelegramIntervalsCredential(telegramUserId: int) returns (r: Option<Json>)
      ensures r == StoredCredential(redis.data, CredentialKey(telegramUserId))
    {
      var key := CredentialKey(telegramUserId);
      if key in redis.data && Truthy(redis.data[key].value) {
        r := Some(redis.data[key].value);
      } else {
        r := None;
      }
    }
  }

  function StoredCredential(data: map<string, Entry>, key: string): (r: Option<Json>)
    ensures r.Some? ==> key in data && r.value == data[key].value
    ensures key in data && Truthy(data[key].value) ==> r.Some?
  {
    if key in data && Truthy(data[key].value) then Some(data[key].value) else None
  }

  /** Distinct Telegram users never share a credential record. */
  lemma CredentialKeysDistinct(a: int, b: int)
    requires a != b
    ensures TelegramTokenPrefix + IntToString(a) != TelegramTokenPrefix + IntToString(b)
  {
    if TelegramTokenPrefix + IntToString(a) == TelegramTokenPrefix + IntToString(b) {
      assert (TelegramTokenPrefix + IntToString(a))[|TelegramTokenPrefix|..] == IntToString(a);
      assert (TelegramTokenPrefix + IntToString(b))[|TelegramTokenPrefix|..] == IntToString(b);
      IntToStringInjective(a, b);
    }
  }

  /** A connect token is one-shot: whatever the first consume returns, a second consume of the same token returns null. */
  method ConsumeConnectTokenTwice(store: OAuthStore, token: string) returns (first: Option<Json>, second: Option<Json>)
    modifies store.redis
    ensures first.Some? ==> token != "" && ConnectTokenPrefix + token in old(store.redis.data)
                            && first == Some(old(store.redis.data)[ConnectTokenPrefix + token].value)
    ensures second.None?
    ensures ConnectTokenPrefix + token !in old(store.redis.data) ==> store.redis.data == old(store.redis.data)
  {
    first := store.ConsumeTelegramConnectToken(token);
    second := store.ConsumeTelegramConnectToken(token);
  }

  /** An OAuth state is one-shot: a second consume of the same state returns null. */
  method ConsumeOAuthStateTwice(store: OAuthStore, state: Option<string>) returns (first: Option<Json>, second: Option<Json>)
    modifies store.redis
    ensures first.Some? ==> state.Some? && state.value != "" && OAuthStatePrefix + state.value in old(store.redis.data)
                            && first == Some(old(store.redis.data)[OAuthStatePrefix + state.value].value)
    ensures second.None?
  {
    first := store.ConsumeIntervalsOAuthState(state);
    second := store.ConsumeIntervalsOAuthState(state);
  }
}
