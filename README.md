# dolor in Dafny

dolor is a chat coach for endurance athletes. It answers in Telegram and in a
web chat, reads the athlete's training data from Intervals.icu, and keeps
each conversation in a Redis-style key-value store. This project models the
backend's own logic and proves properties of it:

- **Conversation history.** The session store keeps one item list per session
  and drops items that carry large tool payloads (`UpstashSession`,
  `LargeTools`). The history cleaner drops reasoning items and strips
  reasoning keys at every depth (`HistoryUtils`). The session input callback
  drops orphaned reasoning items (`DolorChat`).
- **Telegram webhook** (`TelegramWebhook`):
  - the fail-open update lock and the handler's order of checks;
  - the session-state cache with sliding expiry;
  - the Intervals.icu instruction fingerprint and credential sync;
  - the 4096-character message chunker and the command parser.
- **Streaming web chat.** The server turns one agent run into server-sent-event
  frames and stores the reply (`WebChatApi`, `RunStreamUtils`). The browser
  splits the stream back into frames and keeps de-duplicated progress labels
  (`WebApp`). The two are tied by a round-trip lemma.
- **Web data store** (`WebDataStore`): users, sessions, threads with their
  messages, most-recently-used thread lists, and the Telegram mappings.
- **Per-session extra data**, shallow-merged (`SessionExtraStore`).
- **Workout text.** The Intervals.icu workout text builder and validator
  (`IntervalsWorkout`, `IntervalsWorkoutRender`, `IntervalsWorkoutRoundTrip`).
  For clean plans, the validator accepts what the builder writes once the
  duration pattern is corrected. A decimal distance, which the builder
  writes, is refused by the validator.
- **OAuth.** One-shot OAuth tokens and the fallback UUID v4 generator
  (`IntervalsOAuthStore`), and web sign-in (`WebOAuth`).
- **Tools.** The activity-listing command line formatting (`IntervalsCli`) and
  the weather tool's index-aligned projection (`WeatherTool`).

How state is represented:

- Stored data is a finite JSON datatype (`Json`). The key-value store is
  one map per key family: `Kv.KvStore`, or fields of the store classes.
- Classes model objects that change in place: `UpstashSession.UpstashSession`,
  `SessionExtraStore.SessionExtraStore`, `WebDataStore.DataStore`,
  `WebChatApi.LocalSession`, `TelegramWebhook.SessionCache` and
  `WebApp.PendingReply`.
- Loops become methods proved against the functions that specify them.
- Clocks, random bytes and ids, `JSON.parse`, the token exchange and the
  consumer of the event stream are parameters.

`Strings`, `Json`, `Tokens` and `Wrappers` are helper modules. They hold the
JavaScript string built-ins, JSON values, and Option and Result.

## Model

| member | source | states |
|---|---|---|
| LargeTools.ValueContainsLargeToolName | lib/upstash-session.ts:20-40 | a string is large exactly when it is in the large-tool set, and only strings, arrays and objects can hold a large-tool name |
| LargeTools.ContainsIffLeaf | lib/upstash-session.ts:20-40 | the recursive scan reports a large-tool name exactly when one of the tree's string values (not keys) is in the large-tool set |
| LargeTools.ElementsContainIffLeaf | lib/history-utils.ts:25-33 | the scan over array elements finds a name iff some element's string values hold one |
| LargeTools.FieldsContainIffLeaf | lib/history-utils.ts:25-33 | the scan over `Object.values` finds a name iff some field value's strings hold one |
| LargeTools.DropLargeItems | lib/upstash-session.ts:42-45 | sanitizing never lengthens the list, keeps only items that are not large, and invents no item |
| LargeTools.DropLargeAppend | lib/history-utils.ts:36-42 | the filter splits over concatenation, so survivors keep their relative order |
| LargeTools.DropLargeSingle | lib/upstash-session.ts:44 | one item is dropped exactly when it is a truthy object or array that holds a large-tool name |
| LargeTools.DropLargeClean | lib/upstash-session.ts:42-45 | a list with no large item passes unchanged |
| LargeTools.DropLargeIdempotent | lib/upstash-session.ts:42-45 | sanitizing twice is sanitizing once |
| LargeTools.CleanPrefix | lib/upstash-session.ts:84-91 | every prefix of a clean list is clean, so popping keeps the store clean |
| Kv.KvStore.constructor | lib/upstash-session.ts:55 | the store starts with the given records |
| Kv.ExpiryOption | lib/upstash-session.ts:111 | `ttl ? { ex: ttl } : undefined`: an expiry is set iff the ttl is present and non-zero, and then equals it |
| UpstashSession.StoredItems | lib/upstash-session.ts:97-101 | a missing record or a non-array value reads as [] |
| UpstashSession.ItemsWindow | lib/upstash-session.ts:64-74 | every returned item is a stored item that is not large, and a non-positive limit returns nothing |
| UpstashSession.ItemsWindowBounds | lib/upstash-session.ts:64-74 | `getItems(limit)` returns at most `limit` items (none for `limit <= 0`), all clean, and on a clean list exactly the last `limit` stored items |
| UpstashSession.KeysDistinct | lib/upstash-session.ts:56 | distinct session ids under one prefix have distinct keys |
| UpstashSession.UpstashSession.constructor | lib/upstash-session.ts:53-58 | the session id is the given one or the generated one; the key is the prefix (default "agent-session:") followed by the id |
| UpstashSession.UpstashSession.GetSessionId | lib/upstash-session.ts:60-62 | returns the session id |
| UpstashSession.UpstashSession.ReadItems | lib/upstash-session.ts:97-101 | returns the stored array, or [] when absent or not an array |
| UpstashSession.UpstashSession.WriteItems | lib/upstash-session.ts:103-113 | an empty list deletes the key; otherwise the key holds the list with the ttl option; no other key changes |
| UpstashSession.UpstashSession.GetItems | lib/upstash-session.ts:64-74 | the sanitized window of the last `limit` items, at most `limit` long and clean |
| UpstashSession.UpstashSession.AddItems | lib/upstash-session.ts:76-82 | [] leaves the store untouched; otherwise the stored list becomes sanitize(old ++ items), other keys are untouched and the record stays clean |
| UpstashSession.UpstashSession.PopItem | lib/upstash-session.ts:84-91 | an empty list or a falsy last item returns nothing and writes nothing; otherwise returns the last item and stores exactly the preceding prefix |
| UpstashSession.UpstashSession.ClearSession | lib/upstash-session.ts:93-95 | the key is deleted and a later read gives [] |
| HistoryUtils.DropReasoningItems | lib/history-utils.ts:44-45 | no result item has type "reasoning"; the result is no longer than the input and invents no item |
| HistoryUtils.DropReasoningAppend | lib/history-utils.ts:44-45 | dropping reasoning items splits over concatenation, so survivors keep their order |
| HistoryUtils.DropReasoningNone | lib/history-utils.ts:44-45 | a list without reasoning items passes unchanged |
| HistoryUtils.StripReasoningKeys | lib/history-utils.ts:47-68 | arrays stay arrays of the same length, objects stay objects and only lose fields, primitives are returned as they are |
| HistoryUtils.StripElements | lib/history-utils.ts:48-50 | arrays are mapped element by element |
| HistoryUtils.StripFields | lib/history-utils.ts:54-66 | the stripped object has no more fields than the original |
| HistoryUtils.StripLeavesNoReasoningKeys | lib/history-utils.ts:55-64 | after stripping, no object at any depth has a key whose lower-case form contains "reasoning" |
| HistoryUtils.StripElementsLeaveNone | lib/history-utils.ts:48-50 | stripped array elements hold no reasoning key |
| HistoryUtils.StripFieldsLeaveNone | lib/history-utils.ts:55-66 | stripped fields hold no reasoning key, at the top or nested |
| HistoryUtils.StripIdentity | lib/history-utils.ts:47-68 | a tree without reasoning keys is left unchanged |
| HistoryUtils.StripElementsIdentity | lib/history-utils.ts:48-50 | elements without reasoning keys are left unchanged |
| HistoryUtils.StripFieldsIdentity | lib/history-utils.ts:55-66 | fields without reasoning keys are left unchanged |
| HistoryUtils.StripIdempotent | lib/history-utils.ts:47-68 | stripping twice is stripping once |
| HistoryUtils.StripKeepsLeaves | lib/history-utils.ts:48-53 | stripping fabricates no string value: the result's string values are among the input's |
| HistoryUtils.StripElementsKeepLeaves | lib/history-utils.ts:48-50 | the same for array elements |
| HistoryUtils.StripFieldsKeepLeaves | lib/history-utils.ts:55-66 | the same for object fields |
| HistoryUtils.StripFieldsLookup | lib/history-utils.ts:55-66 | a reasoning key is gone; any other key keeps its value, stripped |
| HistoryUtils.RemoveKey | lib/history-utils.ts:82-84 | `delete cloned.id`: the key is absent afterwards, every other key looks up as before |
| HistoryUtils.RemoveAbsentKey | lib/history-utils.ts:82 | deleting a key that is absent changes nothing |
| HistoryUtils.StripReasoningReferences | lib/history-utils.ts:70-86 | the result has no reasoning key and keeps the item's type; a message has no `id`; any other item is just stripped and keeps its `id` |
| HistoryUtils.StripKeepsTypeAndId | lib/history-utils.ts:79-85 | stripping keeps `type` and `id`, since neither is a reasoning key |
| HistoryUtils.StripReasoningReferencesIdempotent | lib/history-utils.ts:70-86 | applying it twice is applying it once |
| HistoryUtils.StripAll | lib/history-utils.ts:89 | `.map(stripReasoningReferences)`: same length, item by item |
| HistoryUtils.CleanHistoryItems | lib/history-utils.ts:88-89 | the output is never longer than the input |
| HistoryUtils.StripNotLarge | lib/history-utils.ts:70-86 | stripping cannot make an item large |
| HistoryUtils.RemoveKeepsLeaves | lib/history-utils.ts:82-84 | deleting `id` adds no string value |
| HistoryUtils.CleanHistoryItemsClean | lib/history-utils.ts:88-89 | every output item is not large, not a reasoning item, has no reasoning key at any depth, and a message has no `id` |
| HistoryUtils.CleanHistoryAppend | lib/history-utils.ts:88-89 | cleaning splits over concatenation, so survivors keep their order |
| HistoryUtils.CleanHistorySingle | lib/history-utils.ts:88-89 | one item is dropped when large or a reasoning item, otherwise stripped |
| HistoryUtils.CleanHistoryIdempotent | lib/history-utils.ts:88-89 | cleaning a cleaned history changes nothing |
| DolorChat.KeptFrom | lib/dolor-chat.ts:15-20 | the filter keeps at most the items it is given |
| DolorChat.AppendHistory | lib/dolor-chat.ts:12-22 | the new items end the result verbatim, after at most the whole history |
| DolorChat.MessageIsNotReasoning | lib/dolor-chat.ts:16-19 | an item typed "message" is not typed "reasoning" |
| DolorChat.KeptHasNoOrphans | lib/dolor-chat.ts:15-20 | in the kept history every reasoning item is directly followed by a message |
| DolorChat.KeptIdentity | lib/dolor-chat.ts:15-20 | a history without orphaned reasoning passes unchanged |
| DolorChat.KeptIdempotent | lib/dolor-chat.ts:15-20 | filtering twice is filtering once |
| DolorChat.KeptKeepsNonReasoning | lib/dolor-chat.ts:16 | every non-reasoning item survives, in order |
| DolorChat.AppendHistorySpec | lib/dolor-chat.ts:12-22 | the part before the new items has no orphans, loses only reasoning items, keeps every reasoning item that a message directly follows (still followed by it), and a trailing reasoning item is dropped |
| DolorChat.KeptKeepsPair | lib/dolor-chat.ts:15-20 | a reasoning item directly followed by a message survives the filter, still directly followed by that message |
| DolorChat.KeptDropsLast | lib/dolor-chat.ts:17 | a reasoning item in last position is always dropped |
| DolorChat.BuildIntervalsInstruction | lib/dolor-chat.ts:29-32 | a non-empty id gives the text naming the athlete; an absent or empty id gives the text asking for it |
| DolorChat.BuildIntervalsInstructionFromValue | lib/dolor-chat.ts:29-32 | the same on any JavaScript value: a string behaves as above, null or undefined asks for the id |
| DolorChat.InstructionQuotesId | lib/dolor-chat.ts:31 | the text starts "... athlete <id>" and ends with the id quoted before the closing sentence |
| DolorChat.InstructionInjective | lib/dolor-chat.ts:29-32 | different ids give different texts, and none is the fallback text |
| TelegramWebhook.Claim | telegram/webhook.ts:75-87 | a store failure claims (fail open) and writes nothing; otherwise the claim succeeds iff the lock key is absent, and then the key is set to "1" with a 600 s expiry |
| TelegramWebhook.SecondClaimRefused | telegram/webhook.ts:75-87 | while the lock lives, the same update cannot be claimed twice |
| TelegramWebhook.LockKeysDistinct | telegram/webhook.ts:76 | different update ids use different lock keys |
| TelegramWebhook.ClaimUpdateLock | telegram/webhook.ts:75-87 | the answer and the new store contents are those of `Claim` |
| TelegramWebhook.Respond | telegram/webhook.ts:486-535 | an update is queued or processed inline only past the lock and only when claimed; inline only when it has a message and the enqueue failed; never both; every status is 200, 400, 401 or 405 |
| TelegramWebhook.HandleWebhookRequest | telegram/webhook.ts:486-535 | the lock is consulted only for an authorised POST whose body parsed, and the store changes only through that claim |
| TelegramWebhook.RedeliveryIsDuplicate | telegram/webhook.ts:512-515 | a redelivered update is answered 200 "Duplicate update" and is neither queued nor processed |
| TelegramWebhook.GetChatKey | telegram/webhook.ts:89-90 | the key starts with the chat id and holds a ':' exactly when there is a non-zero thread id |
| TelegramWebhook.NoColonInInt | telegram/webhook.ts:89-90 | a rendered integer holds no ':' |
| TelegramWebhook.ThreadKeyParts | telegram/webhook.ts:89-90 | a threaded chat key splits at its first ':' into the chat id and the thread id |
| TelegramWebhook.ChatKeyInjective | telegram/webhook.ts:89-90 | two chats share a key iff they have the same chat id and the same truthy thread id (absent and 0 count as none) |
| TelegramWebhook.GetInstructionKey | telegram/webhook.ts:92-93 | the fingerprint is "athlete:" followed by the athlete id when there is a non-empty one |
| TelegramWebhook.InstructionKeysDistinct | telegram/webhook.ts:92-93 | distinct non-empty athlete ids get distinct fingerprints |
| TelegramWebhook.InstructionKeyOfNone | telegram/webhook.ts:92-93 | the athlete id "none" shares its fingerprint with having no athlete |
| TelegramWebhook.SessionState.constructor | telegram/webhook.ts:101-104 | a new state has the given session, expires ten minutes from now, and has no athlete, instruction key, token or scope |
| TelegramWebhook.SessionCache.constructor | telegram/webhook.ts:69-73 | the cache starts empty; sessions get a 600 s ttl outside production and none in production |
| TelegramWebhook.SessionCache.CreateSessionState | telegram/webhook.ts:95-104 | a fresh state for the key |
| TelegramWebhook.SessionCache.EnsureSessionState | telegram/webhook.ts:106-122 | a live entry is kept with its fields and its expiry slid to now + 600000 ms; a missing or expired entry (expiresAt <= now) is replaced by a fresh state |
| TelegramWebhook.SessionCache.ResetSessionState | telegram/webhook.ts:124-128 | the key maps to a fresh state whose session still reads the persisted items |
| TelegramWebhook.InstructionAsWrittenNamesObject | telegram/webhook.ts:135 | as written, the added instruction always names "athlete [object Object]", whatever the athlete id |
| TelegramWebhook.InstructionItemNamesAthlete | lib/dolor-chat.ts:29-32 | the intended item names the athlete exactly when there is a non-empty id |
| TelegramWebhook.EnsureIntervalsInstruction | telegram/webhook.ts:130-138 | afterwards the instruction key matches the athlete; when it matched before nothing is written, otherwise one system item is added through `addItems` |
| TelegramWebhook.SyncIntervalsCredential | telegram/webhook.ts:355-384 | without a user id, a credential or a change of token or athlete id nothing changes; otherwise the state adopts the credential, the instruction key is cleared and the extra record is merged (left as is when the merge fails) |
| TelegramWebhook.SyncAdoptsSavedCredential | telegram/webhook.ts:369-372 | a credential saved by the OAuth store is read back with its own athlete id, token and scope |
| TelegramWebhook.NonWhitespaceTrim | telegram/webhook.ts:142 | trimming removes only whitespace |
| TelegramWebhook.ChunkStep | telegram/webhook.ts:145-151 | one pass of the loop yields a good chunk and a strictly shorter trimmed remainder, losing no non-whitespace character |
| TelegramWebhook.ChunkStepAll | telegram/webhook.ts:144-152 | the loop invariant is kept: all chunks good and the non-whitespace text preserved |
| TelegramWebhook.ChunkLast | telegram/webhook.ts:154-156 | the short remainder is a good last chunk |
| TelegramWebhook.ChunkMessage | telegram/webhook.ts:140-159 | every chunk is non-empty, at most 4096 characters and trimmed; the chunks hold all non-whitespace characters in order; no chunks iff the text is blank; a trimmed text of at most 4096 characters is the only chunk; the loop's chunks are exactly those cut by `CutLength`, pass by pass, from the trimmed text |
| TelegramWebhook.CutLength | telegram/webhook.ts:144-148 | a pass cuts at the last newline of the first 4096 characters when that newline lies past index 2048, and after 4096 characters when no newline lies between index 2049 and 4095; the cut is always past 2048, so the loop terminates |
| TelegramWebhook.ParseCommand | telegram/webhook.ts:210-218 | a command comes only from text starting with "/", its name is non-empty without '@', and its raw form is one of the text's words |
| TelegramWebhook.SplitHead | telegram/webhook.ts:215 | `s.split(c)[0]` is the part before the first `c` |
| TelegramWebhook.SlashFirstWord | telegram/webhook.ts:211-214 | a text starting with "/" has a first word starting with "/" |
| TelegramWebhook.SplitHeadSlash | telegram/webhook.ts:215 | the part before '@' keeps the leading "/" and holds no '@' |
| TelegramWebhook.ParseCommandSpec | telegram/webhook.ts:210-218 | a command iff the text starts with "/"; raw is the first word, args the other words, and the command is raw up to '@', lower-cased, starting with "/" |
| SessionExtraStore.IndexedFields | lib/session-extra-store.ts:40 | spreading an array gives the fields "0", "1", … holding its elements in order |
| SessionExtraStore.CharsAsJson | lib/session-extra-store.ts:40 | spreading a string gives one one-character string per character |
| SessionExtraStore.StoredRecord | lib/session-extra-store.ts:35-43 | an empty session id, a missing record and a non-object record all read as null |
| SessionExtraStore.GetAfterSet | lib/session-extra-store.ts:35-56 | a record written by `set` reads back as the data and the timestamp written |
| SessionExtraStore.Assign | lib/session-extra-store.ts:60 | assigning a key gives it the new value and leaves every other key as it was |
| SessionExtraStore.WithoutKeys | lib/session-extra-store.ts:60 | the keys passed as `undefined` are gone, every other key keeps its value |
| SessionExtraStore.SpreadMergeLookup | lib/session-extra-store.ts:60 | after `{ ...a, ...b }` every key of `b` has `b`'s value and every other key keeps `a`'s |
| SessionExtraStore.SessionExtraStore.constructor | lib/session-extra-store.ts:25-29 | the prefix defaults to "agent-session-extra:" and the ttl to 600 s |
| SessionExtraStore.SessionExtraStore.BuildKey | lib/session-extra-store.ts:31-33 | the key is the prefix followed by the session id |
| SessionExtraStore.SessionExtraStore.GetRecord | lib/session-extra-store.ts:35-43 | returns the stored record's data and timestamp, null for an empty id or a missing or non-object record |
| SessionExtraStore.SessionExtraStore.SetRecord | lib/session-extra-store.ts:45-56 | replaces the whole record (no merge) with the data and the timestamp, with `{ ex: ttl }` unless the ttl is 0; a later get returns it |
| SessionExtraStore.SessionExtraStore.Merge | lib/session-extra-store.ts:58-62 | the stored data becomes the existing data overridden key by key by the new data, minus the keys passed as `undefined` |
| SessionExtraStore.SessionExtraStore.Delete | lib/session-extra-store.ts:64-66 | the record is removed, after which get returns null |
| SessionExtraStore.MergeOverrides | lib/session-extra-store.ts:58-62 | a merged key has the new value, a key absent from the new data keeps the old value, a key passed as `undefined` is gone |
| IntervalsOAuthStore.PatchVersion | lib/intervals-oauth-store.ts:15-16 | byte 6 gets high nibble 4 (the version of section 4.4 of RFC 4122) and byte 8 top bits 10 (the variant of section 4.1.1); their other bits and all other bytes are kept |
| IntervalsOAuthStore.HexDigit | lib/intervals-oauth-store.ts:17 | a value below 16 becomes a lower-case hex digit |
| IntervalsOAuthStore.HexDigitValue | lib/intervals-oauth-store.ts:17 | the hex digit of a value reads back as that value |
| IntervalsOAuthStore.ToHex | lib/intervals-oauth-store.ts:17 | `value.toString(16).padStart(2, "0")`: two lower-case hex digits |
| IntervalsOAuthStore.ToHexValue | lib/intervals-oauth-store.ts:17 | the two digits read back as the byte |
| IntervalsOAuthStore.HexJoin | lib/intervals-oauth-store.ts:19-23 | joined hex of n bytes is 2n lower-case hex digits |
| IntervalsOAuthStore.HexJoinAppend | lib/intervals-oauth-store.ts:18-24 | hex of concatenated bytes is the concatenated hex |
| IntervalsOAuthStore.ParseHexJoin | lib/intervals-oauth-store.ts:17-24 | reading the hex back gives the bytes (round trip) |
| IntervalsOAuthStore.HexJoinInjective | lib/intervals-oauth-store.ts:17-24 | different bytes give different hex |
| IntervalsOAuthStore.FormatUuid | lib/intervals-oauth-store.ts:17-25 | the formatted UUID has 36 characters |
| IntervalsOAuthStore.GenerateUuid | lib/intervals-oauth-store.ts:7-25 | the UUID is the 8-4-4-4-12 hex of the random bytes with version and variant patched |
| IntervalsOAuthStore.RemoveHyphens | lib/intervals-oauth-store.ts:44 | `replace(/-/g, "")` leaves no hyphen |
| IntervalsOAuthStore.RemoveHyphensOfHex | lib/intervals-oauth-store.ts:44 | hex digits pass unchanged |
| IntervalsOAuthStore.UuidGroups | lib/intervals-oauth-store.ts:18-25 | hyphens at 8, 13, 18 and 23, and the groups are the hex of bytes 0-3, 4-5, 6-7, 8-9 and 10-15 |
| IntervalsOAuthStore.UuidShape | lib/intervals-oauth-store.ts:17-25 | every character other than the four hyphens is a lower-case hex digit |
| IntervalsOAuthStore.UuidVersionDigits | lib/intervals-oauth-store.ts:15-25 | the version digit (index 14) is '4' and the variant digit (index 19) is one of 8, 9, a, b |
| IntervalsOAuthStore.UuidToken | lib/intervals-oauth-store.ts:44 | without hyphens the UUID is the hex of its 16 bytes |
| IntervalsOAuthStore.UuidLayout | lib/intervals-oauth-store.ts:44 | a token is the 32 hex digits of the patched bytes |
| IntervalsOAuthStore.TokenInjective | lib/intervals-oauth-store.ts:44 | different patched bytes give different tokens |
| IntervalsOAuthStore.DecodeEncodeConnect | lib/intervals-oauth-store.ts:45-49 | a stored connect payload, and the OAuth state record `{ ...payload, createdAt }`, read back as the payload; the state keeps its createdAt |
| IntervalsOAuthStore.ConnectFields | lib/intervals-oauth-store.ts:74-77 | fields added after the payload do not change how it reads back |
| IntervalsOAuthStore.CredentialFields | lib/intervals-oauth-store.ts:108-115 | a stored credential keeps its athlete id, access token and scope |
| IntervalsOAuthStore.CredentialAthleteName | lib/intervals-oauth-store.ts:108-115 | and its athlete name, when it has one |
| IntervalsOAuthStore.OAuthStore.constructor | lib/intervals-oauth-store.ts:28 | the store is the given key-value store |
| IntervalsOAuthStore.OAuthStore.CreateTelegramConnectToken | lib/intervals-oauth-store.ts:41-51 | the token is the 32-hex-digit UUID without hyphens; the payload is stored under the connect prefix with a 900 s expiry |
| IntervalsOAuthStore.OAuthStore.ConsumeKey | lib/intervals-oauth-store.ts:56-63 | a truthy stored value is returned and deleted; otherwise nothing is returned or changed |
| IntervalsOAuthStore.OAuthStore.ConsumeTelegramConnectToken | lib/intervals-oauth-store.ts:53-64 | an empty token gives null and changes nothing; a truthy stored payload is returned and deleted; a missing or falsy record gives null and changes nothing; no other key ever changes |
| IntervalsOAuthStore.OAuthStore.CreateIntervalsOAuthState | lib/intervals-oauth-store.ts:70-82 | the state is a 32-hex-digit token; the payload plus createdAt is stored with a 120 s expiry |
| IntervalsOAuthStore.OAuthStore.ConsumeIntervalsOAuthState | lib/intervals-oauth-store.ts:84-95 | a null or empty state gives null and changes nothing; a truthy stored record is returned and deleted; a missing or falsy record gives null and changes nothing; no other key ever changes |
| IntervalsOAuthStore.OAuthStore.SaveTelegramIntervalsCredential | lib/intervals-oauth-store.ts:108-115 | the credential is stored per Telegram user id with no expiry |
| IntervalsOAuthStore.OAuthStore.GetTelegramIntervalsCredential | lib/intervals-oauth-store.ts:117-125 | returns the stored credential, or null when it is missing or falsy |
| IntervalsOAuthStore.StoredCredential | lib/intervals-oauth-store.ts:120-124 | a result is the stored value, and a truthy stored value is always returned |
| IntervalsOAuthStore.CredentialKeysDistinct | lib/intervals-oauth-store.ts:112 | different Telegram users have different credential keys |
| IntervalsOAuthStore.ConsumeConnectTokenTwice | lib/intervals-oauth-store.ts:53-64 | consuming the same connect token twice: the first call returns the stored payload if anything, the second always returns null, and a token that was never stored changes nothing |
| IntervalsOAuthStore.ConsumeOAuthStateTwice | lib/intervals-oauth-store.ts:84-95 | consuming the same OAuth state twice: the first call returns the stored record if anything, the second always returns null |
| WebOAuth.StripTrailingSlashes | lib/web-oauth.ts:37 | `replace(/\/+$/, "")`: a prefix of the input, not ending in '/', with only '/' removed |
| WebOAuth.NormalizeBaseUrl | lib/web-oauth.ts:35-38 | null or "" give null; otherwise the value with every trailing '/' stripped |
| WebOAuth.NormalizeIdempotent | lib/web-oauth.ts:35-38 | normalising twice is normalising once |
| WebOAuth.AllSlashesUnconfigured | lib/web-oauth.ts:35-38 | a base URL of slashes only normalises to "" and counts as not configured |
| WebOAuth.StripAppendedSlashes | lib/web-oauth.ts:37 | slashes appended to a base that does not end in '/' are all removed |
| WebOAuth.SetCookie | lib/web-oauth.ts:46-47 | the cookie starts with `name=value;` |
| WebOAuth.CookieReadsBack | lib/web-oauth.ts:46-47 | the cookie's first attribute is `name=value`, and the cookie parser reads it back as that single pair |
| WebOAuth.LiveState | lib/web-oauth.ts:63-75 | a state is found iff it is stored and not past its expiry, and then it is the stored payload |
| WebOAuth.StateStore.constructor | lib/web-oauth.ts:29-30 | the store starts empty, backed by the key-value store or by memory |
| WebOAuth.StateStore.Key | lib/web-oauth.ts:54-58 | the key carries the "intervals:web-oauth-state:" prefix only in the key-value store |
| WebOAuth.StateStore.CreateState | lib/web-oauth.ts:49-61 | stores the nonce and creation time under the state, with a 300 s expiry in the key-value store and none in memory, and returns the state |
| WebOAuth.StateStore.ConsumeState | lib/web-oauth.ts:63-75 | a null or empty state gives null and changes nothing; otherwise returns the live stored value and deletes the entry, even when absent |
| WebOAuth.AccessToken | lib/web-oauth.ts:107-110 | present iff access_token is a string that is not blank, and then it is that string trimmed |
| WebOAuth.AthleteId | lib/web-oauth.ts:111-114 | present iff athlete.id is neither null nor undefined, and then it is `String(id)` |
| WebOAuth.ExtractIdentity | lib/web-oauth.ts:106-126 | succeeds iff there is a token and a non-empty athlete id |
| WebOAuth.ExtractIdentityFields | lib/web-oauth.ts:118-125 | the identity holds the trimmed token and the id; the name only when a string, scope defaults to "", token type to "Bearer" |
| WebOAuth.TokenResponseFields | lib/web-oauth.ts:106-126 | a token response built from an identity carries its token, type, scope and athlete |
| WebOAuth.AthleteObjectFields | lib/web-oauth.ts:111-120 | the athlete object carries the id and the name |
| WebOAuth.ExtractTokenResponse | lib/web-oauth.ts:106-126 | extracting the identity from the token response built from it gives it back (round trip) |
| WebOAuth.MissingTokenFails | lib/web-oauth.ts:115-117 | without a non-blank access token extraction fails |
| WebOAuth.HandleWebLoginRequest | lib/web-oauth.ts:128-146 | without a base URL or client id: a 500 page and no state stored; otherwise a redirect to the authorize URL carrying the state, which is now live, and the store is the old one with only that state's entry set, with the 300 s expiry in the key-value store |
| WebOAuth.CallbackResponse | lib/web-oauth.ts:150-197 | a redirect iff base URL, live state, no error, a code and an identity; 500 iff no base URL; an error param after a live state gives 400 "Sign in canceled"; the redirect goes to the base URL and sets the session cookie with Max-Age 2592000 |
| WebOAuth.CallbackCookieNamesSession | lib/web-oauth.ts:193-195 | the cookie set on success reads back as the session id under the cookie name |
| WebOAuth.HandleWebCallbackRequest | lib/web-oauth.ts:150-197 | the response follows the check order; the state is consumed before the error and code checks; on a page no user or session changes; on success the session belongs to the user holding the exchanged identity, that user is the one the athlete id was mapped to (or a new one), its record is the only user record written and is stamped now, the athlete id maps to it, and the only session written is the new one, expiring after the session TTL |
| WebChatApi.TrimmedEntrySplitsAtFirstEquals | lib/web-chat-api.ts:35-37 | a trimmed cookie entry yields a pair exactly when its first `=` is not at position 0; the name is what precedes that `=` and the value is everything after it, later `=` signs included |
| WebChatApi.CookieEntrySplitsAtFirstEquals | lib/web-chat-api.ts:34-37 | a raw `;`-separated part is trimmed before the split, and is skipped exactly when its name is empty or it has no `=` |
| WebChatApi.CookieMapSnoc | lib/web-chat-api.ts:34-38 | handling one more part only adds (or overwrites) that part's cookie on the map built so far |
| WebChatApi.ParseCookieHeader | lib/web-chat-api.ts:30-40 | a missing or empty header gives the empty map; otherwise the loop's map is the fold of the header's `;`-separated parts |
| WebChatApi.CookieLastWins | lib/web-chat-api.ts:36-37 | when a name occurs several times, the map holds the value of its last well-formed occurrence |
| WebChatApi.CookieNamesFromParts | lib/web-chat-api.ts:33-38 | every name in the map, with its value, comes from some well-formed part of the header |
| WebChatApi.LocalSession.constructor | lib/web-chat-api.ts:46-48 | a local session starts with the given id and no items |
| WebChatApi.LocalSession.GetSessionId | lib/web-chat-api.ts:50-52 | returns the id the session was created with |
| WebChatApi.LocalSession.GetItems | lib/web-chat-api.ts:54-57 | without a limit returns every item; with one, returns the last `limit` items (all when fewer, none when the limit is not positive), in order |
| WebChatApi.LocalSession.AddItems | lib/web-chat-api.ts:59-61 | appends the new items after the existing ones |
| WebChatApi.LocalSession.PopItem | lib/web-chat-api.ts:63-65 | an empty session returns nothing and stays empty; otherwise the last item is removed and returned |
| WebChatApi.LocalSession.ClearSession | lib/web-chat-api.ts:67-69 | the session is left with no items |
| WebChatApi.Quote | lib/web-chat-api.ts:194-196 | a JSON string literal starts and ends with a quote and holds no raw newline |
| WebChatApi.Stringify | lib/web-chat-api.ts:194-196 | `JSON.stringify` output is non-empty, has no raw newline and begins and ends with a non-space JSON delimiter or literal character, so an SSE `data:` line cannot be split by it |
| WebChatApi.KeepTitleChars | lib/web-chat-api.ts:201 | removing disallowed characters keeps only letters, digits, whitespace, apostrophes, hyphens and colons, and never lengthens the text |
| WebChatApi.ShortTitle | lib/web-chat-api.ts:204-205 | the title uses at most eight non-empty words, none containing a space |
| WebChatApi.GenerateTitleFromFirstMessage | lib/web-chat-api.ts:198-208 | the title is never empty, is at most 52 characters long, and is "New thread" when nothing survives cleaning |
| WebChatApi.TitleTruncated | lib/web-chat-api.ts:204-207 | when the joined words exceed 52 characters the title is the capitalised words cut after 49 characters, with the whitespace at the cut removed, followed by "..."; what is kept is a non-empty prefix of the capitalised words |
| WebChatApi.TitleWords | lib/web-chat-api.ts:204-207 | when the joined words fit in 52 characters the title is those words, joined by single spaces, with the first letter capitalised, and splitting it on spaces gives the words back |
| WebChatApi.NonBlank | lib/web-chat-api.ts:251-252 | the trimmed message text is absent exactly when the text is all whitespace; otherwise it neither starts nor ends with whitespace |
| WebChatApi.MessageText | lib/web-chat-api.ts:250-252 | a body without a string `text` field gives no message; otherwise the message is the trimmed, non-blank text |
| WebChatApi.FallbackTitleRetitles | lib/web-chat-api.ts:203 | a thread titled with the fallback "New thread" and no messages is still renamed by its first message |
| WebChatApi.FallbackToolLabel | lib/web-chat-api.ts:218-224 | the fallback tool label is shown; it is "Finished " then the tool name then "." for a tool output and "Running " then the name then "..." for a tool call, with every underscore of the name read as a space and every other character kept |
| WebChatApi.AgentLabel | lib/web-chat-api.ts:227-229 | the agent label is never blank |
| WebChatApi.GetProgressLabel | lib/web-chat-api.ts:210-238 | unrelated events have no label; a run-item event has one exactly when it is a reasoning item ("Analyzing your request...") or a tool call or output (its non-blank user log line, else the fallback label); an agent update gives "Using <agent or assistant>..."; a raw model event gives "Refining the recommendation..." exactly when its type mentions reflection |
| WebChatApi.ProgressLabelNotBlank | lib/web-chat-api.ts:210-238 | every label produced is non-blank after trimming, so the stream's `if (progressLabel)` always sends it |
| WebChatApi.ProgressUsesLogLine | lib/web-chat-api.ts:215-217 | a tool event whose user-facing log line is non-blank is labelled with that log line |
| WebChatApi.Phase | lib/web-chat-api.ts:340-342 | a progress frame's phase is "done" exactly for a tool output and "called" otherwise |
| WebChatApi.SseFrame | lib/web-chat-api.ts:194-196 | a frame ends with a blank line, and for an event name without a line break that is its only blank line |
| WebChatApi.Render | lib/web-chat-api.ts:194-196 | rendering frames keeps them one for one, each as `event: …\ndata: …\n\n` |
| WebChatApi.RenderAppend | lib/web-chat-api.ts:291-357 | rendering distributes over concatenation of frame lists |
| WebChatApi.BodyFrames | lib/web-chat-api.ts:330-347 | the frames for the streamed events are only token and progress frames |
| WebChatApi.EndFrame | lib/web-chat-api.ts:357-370 | the stream ends with a "done" frame when the run completed and an "error" frame when it failed |
| WebChatApi.StoredReplyCases | lib/web-chat-api.ts:348-369 | a completed run always stores a non-interrupted, trimmed, non-blank reply (the apology when no text came); a failed run stores the untrimmed text, marked interrupted, exactly when that text is not blank |
| WebChatApi.Take | lib/web-chat-api.ts:279-286 | what a closing consumer accepts is a prefix of what was offered |
| WebChatApi.SafeEnqueue | lib/web-chat-api.ts:279-286 | after the stream closes nothing more is sent; before that a chunk is sent while the consumer accepts it, and a refusal closes the stream without sending |
| WebChatApi.EnqueueStep | lib/web-chat-api.ts:279-286 | one `safeEnqueue` keeps "what was sent is the longest accepted prefix of what was meant to be sent" |
| WebChatApi.SendEvent | lib/web-chat-api.ts:330-346 | handling one event returns its text delta and extends the delivered prefix by that event's token and progress frames |
| WebChatApi.SendFrames | lib/web-chat-api.ts:332-346 | sending a delta and a label delivers exactly the event's frames, token first |
| WebChatApi.IntendedSnoc | lib/web-chat-api.ts:330-347 | the frames meant for one more event are the earlier ones followed by that event's frames |
| WebChatApi.AssistantTextSnoc | lib/web-chat-api.ts:331-333 | the assistant text grows by each event's delta, in order |
| WebChatApi.StreamMessage | lib/web-chat-api.ts:272-383 | the stream sends the longest prefix the consumer accepts of: message_start, the token and progress frames of every event, then done or error; `close` is called exactly when the consumer took all of it; the stored reply is the one the run's outcome calls for |
| WebChatApi.StreamBody | lib/web-chat-api.ts:291-347 | the loop over events delivers the start frame and every event's frames, and accumulates the concatenated deltas |
| WebChatApi.EndRendered | lib/web-chat-api.ts:357-370 | the full stream is the body followed by exactly one end frame |
| WebChatApi.BodyFramesSnoc | lib/web-chat-api.ts:330-347 | the body frames for one more event are the earlier ones plus that event's |
| WebChatApi.FrameOrder | lib/web-chat-api.ts:291-370 | the intended stream starts with message_start, ends with done (completed) or error (failed), and in between holds only token and progress frames |
| WebChatApi.TokenTextAppend | lib/web-chat-api.ts:330-335 | the text carried by token frames distributes over concatenation |
| WebChatApi.FramesForTokenText | lib/web-chat-api.ts:332-335 | one event's frames carry exactly its delta in token frames |
| WebChatApi.TokensSpellAssistantText | lib/web-chat-api.ts:330-335 | the token frames, read in order, spell the assistant text that is stored |
| RunStreamUtils.Truncate | lib/run-stream-utils.ts:85-86 | text no longer than the limit is kept; longer text becomes its first `max` characters followed by one ellipsis |
| RunStreamUtils.ExtractContentText | lib/run-stream-utils.ts:88-89 | content that is not an array contributes no text |
| RunStreamUtils.ConcatTextsAppend | lib/run-stream-utils.ts:90-102 | the joined text of a concatenation of entries is the concatenation of their joined texts |
| RunStreamUtils.ConcatTextsSingle | lib/run-stream-utils.ts:91-100 | one entry contributes its `text` when it is an object with a string `text`, and nothing otherwise |
| RunStreamUtils.GetToolName | lib/run-stream-utils.ts:108-111 | the tool name is `rawItem.name` when that is a string, and "tool" otherwise |
| RunStreamUtils.GetTextDeltaFromEvent | lib/run-stream-utils.ts:113-126 | a non-empty delta comes only from a raw model event whose type mentions `output_text` and whose string `delta` it is; every such event yields its delta |
| RunStreamUtils.LookupLabels | lib/run-stream-utils.ts:144 | a label entry found for a name is that name's entry in the table; none is found only when the table has no entry for the name |
| RunStreamUtils.DescribeReasoningItem | lib/run-stream-utils.ts:128-136 | reasoning is never shown to the user audience |
| RunStreamUtils.DescribeHandoffEvent | lib/run-stream-utils.ts:168-188 | handoffs are never shown to the user audience |
| RunStreamUtils.GetLogLineFromEvent | lib/run-stream-utils.ts:190-224 | users see no line for reasoning, handoffs, agent switches or raw model events; unrelated events and run items of other kinds give no line for either audience, and neither do raw model events that are not reflections |
| RunStreamUtils.DescribeToolEvent | lib/run-stream-utils.ts:138-168 | the description of a tool event is trimmed, and empty for any event other than a tool call or tool output |
| RunStreamUtils.DescribeTool | lib/run-stream-utils.ts:142-167 | the description is trimmed, empty for any event other than a tool call or output, and empty for users when the tool's labels hide it |
| RunStreamUtils.ToolEventLine | lib/run-stream-utils.ts:198-200 | a tool call or tool output is described by the tool-event describer |
| RunStreamUtils.CurrentTimeEntry | lib/run-stream-utils.ts:31-34 | `get_current_time` has empty user labels and no console labels |
| RunStreamUtils.CurrentTimeSilentForUsers | lib/run-stream-utils.ts:31-34 | the clock tool is never announced to users |
| RunStreamUtils.UnlabelledCalled | lib/run-stream-utils.ts:145-161 | a tool with no label entry is announced to users as "Running <name>…" (trimmed), unless it is a large Intervals tool, which is announced with nothing |
| RunStreamUtils.UnlabelledOutput | lib/run-stream-utils.ts:150-164 | a tool with no label entry is reported done to users as "<name> done." (trimmed), unless it is a large Intervals tool |
| RunStreamUtils.UnlabelledToolLines | lib/run-stream-utils.ts:145-164 | for an unlabelled tool, trimming leaves the call line unchanged and the done line unchanged when the name does not start with whitespace; a large Intervals tool gets no done line |
| RunStreamUtils.LargeToolsLabelled | lib/run-stream-utils.ts:11-83 | every large Intervals tool has non-empty user call and done labels, so hiding its payload never hides its progress |
| RunStreamUtils.ActivitiesLabelled | lib/run-stream-utils.ts:35-40 | `list_intervals_activities` has user-facing labels |
| RunStreamUtils.ActivityIntervalsLabelled | lib/run-stream-utils.ts:41-47 | `get_intervals_activity_intervals` has user-facing labels |
| RunStreamUtils.ChatMessagesLabelled | lib/run-stream-utils.ts:48-54 | `list_intervals_chat_messages` has user-facing labels |
| RunStreamUtils.ActivityLabelled | lib/run-stream-utils.ts:59-64 | `get_intervals_activity` has user-facing labels |
| RunStreamUtils.WellnessRecordsLabelled | lib/run-stream-utils.ts:71-76 | `list_intervals_wellness_records` has user-facing labels |
| RunStreamUtils.LookupPrefix | lib/run-stream-utils.ts:144 | looking a name up finds its first entry in the table |
| WebDataStore.ToPublicThread | lib/web-data-store.ts:224-236 | the public view of a thread carries its id, owner, title, archive flag, last-message time and message count unchanged |
| WebDataStore.Without | lib/web-data-store.ts:220 | filtering an id out of a thread list removes every copy of it, keeps every other id, and never lengthens the list |
| WebDataStore.MoveToFront | lib/web-data-store.ts:220 | `[id, ...ids.filter(item => item !== id)]` puts the id first, followed by the filtered list, and holds exactly the old ids plus that one |
| WebDataStore.WithoutNoDuplicates | lib/web-data-store.ts:220 | filtering keeps a duplicate-free list duplicate-free |
| WebDataStore.MoveToFrontNoDuplicates | lib/web-data-store.ts:220 | moving an id to the front keeps a duplicate-free thread list duplicate-free |
| WebDataStore.WithoutKeepsOrder | lib/web-data-store.ts:220 | filtering keeps the relative order of the remaining ids, so the list stays most-recently-used first |
| WebDataStore.InsertByRecent | lib/web-data-store.ts:246 | inserting a thread into a most-recent-first list adds exactly that thread and keeps the order |
| WebDataStore.SortByRecent | lib/web-data-store.ts:246 | the listing's sort is a permutation of its input, ordered by last message time, most recent first |
| WebDataStore.DataStore.constructor | lib/web-data-store.ts:89 | an empty store holds no users, sessions, threads or Telegram mappings, and satisfies the store invariant |
| WebDataStore.DataStore.CreateWebSession | lib/web-data-store.ts:145-152 | a new session expires thirty days after its creation and is stored under its id; nothing else changes |
| WebDataStore.DataStore.GetWebSession | lib/web-data-store.ts:154-163 | an empty or unknown id gives nothing; an expired session is deleted and gives nothing; a live one is returned unchanged, and a returned session has not expired |
| WebDataStore.DataStore.DeleteWebSession | lib/web-data-store.ts:165-168 | deleting removes the session, except that an empty id is ignored |
| WebDataStore.DataStore.UpsertUserFromIntervals | lib/web-data-store.ts:170-193 | the athlete's existing user (or a new one under the mapped or a fresh id) is stamped, linked to the identity, keeps a non-empty display name or takes the athlete's, and is stored with the athlete mapped to it |
| WebDataStore.DataStore.GetUserById | lib/web-data-store.ts:195-198 | a user is found exactly when the id is non-empty and stored |
| WebDataStore.DataStore.CreateThread | lib/web-data-store.ts:200-222 | a new web thread is stored under a fresh id and moved to the front of its owner's thread list; the store invariant is kept |
| WebDataStore.DataStore.ListThreads | lib/web-data-store.ts:238-248 | the listing holds exactly the user's stored threads with the requested archive flag (as a multiset), most recent first |
| WebDataStore.DataStore.Listed | lib/web-data-store.ts:243-245 | every listed thread is a stored thread of the list with the requested flag, and every such thread is listed |
| WebDataStore.DataStore.GetThread | lib/web-data-store.ts:250-253 | a thread is found exactly when it is stored, as its public view |
| WebDataStore.DataStore.UpdateThread | lib/web-data-store.ts:258-274 | a missing thread or one owned by someone else is refused and left alone; otherwise the patch is applied and stamped, and the store invariant is kept |
| WebDataStore.DataStore.ListMessages | lib/web-data-store.ts:276-283 | an unknown thread gives no messages; otherwise the last `limit` messages in order (all when fewer, none when the limit is not positive) |
| WebDataStore.DataStore.AppendMessage | lib/web-data-store.ts:285-313 | an unknown thread is refused; otherwise the record is appended, the count, last-message and update times follow it, and the thread moves to the front of its owner's list; the store invariant is kept |
| WebDataStore.DataStore.LinkTelegramUserToUser | lib/web-data-store.ts:315-320 | the Telegram user is mapped to the web user and nothing else changes |
| WebDataStore.DataStore.GetUserIdByTelegramUserId | lib/web-data-store.ts:322-326 | the web user is found exactly when the Telegram user is mapped |
| WebDataStore.DataStore.GetOrCreateTelegramThread | lib/web-data-store.ts:328-362 | a chat mapped to a stored thread of the same user gives that thread and changes nothing; otherwise a new read-only Telegram thread is stored, the chat is mapped to it, and it moves to the front of the user's list |
| WebDataStore.MergedDisplayName | lib/web-data-store.ts:185-187 | a non-empty display name is kept; a missing or empty one is replaced by a non-empty athlete name |
| WebDataStore.TitleOr | lib/web-data-store.ts:206 | a blank title falls back to the default; any other title is stored trimmed and non-empty |
| WebDataStore.NewWebThread | lib/web-data-store.ts:203-217 | a new web thread is writable, not archived, empty, keyed by its id, uses its id as agent session, and has all three timestamps equal to the creation time |
| WebDataStore.NewTelegramThread | lib/web-data-store.ts:341-355 | a new Telegram thread is read-only, refers to its chat, uses the chat key as agent session, and starts empty |
| WebDataStore.Record | lib/web-data-store.ts:294-303 | the stored message keeps the caller's role, content and source, and takes the caller's id, time and meta when given, else a fresh id, the current time and an empty meta |
| WebDataStore.Patched | lib/web-data-store.ts:265-271 | a non-blank title replaces the old one trimmed, a given archive flag replaces the old one, the update time is stamped, and nothing else changes |
| WebApp.FindBlankLine | web/App.tsx:69 | the search finds the first blank-line separator `\n\n`, and reports none exactly when the buffer holds none |
| WebApp.FindBlankLineAt | web/App.tsx:69 | a separator with none before it is the one the search finds |
| WebApp.SplitOneFrame | web/App.tsx:69 | a frame body without separators, followed by one separator, splits into that body and an empty rest |
| WebApp.SplitFrames | web/App.tsx:69-70 | `split("\n\n")` gives at least one piece, and the last piece (the unfinished rest) holds no separator |
| WebApp.JoinSplitFrames | web/App.tsx:69 | joining the pieces with `\n\n` gives the buffer back, so nothing is lost between calls |
| WebApp.LineStep | web/App.tsx:75-81 | an `event:` line sets the event name to its trimmed remainder; otherwise a `data:` line appends its trimmed remainder to the data lines; any other line changes nothing |
| WebApp.FrameFieldsSnoc | web/App.tsx:75-81 | reading one more line applies that line's step to the fields read so far |
| WebApp.LastEventLineWins | web/App.tsx:76-77 | with several `event:` lines, the last one names the event |
| WebApp.DefaultEventName | web/App.tsx:73 | a frame without an `event:` line is a "message" event |
| WebApp.ReadFrame | web/App.tsx:72-81 | the loop over a frame's lines computes the event name and data lines of the fold over them |
| WebApp.ParseSseChunk | web/App.tsx:67-90 | every complete frame in the buffer is offered, in order, for dispatch, and the unfinished rest is returned holding no separator |
| WebApp.KeepAliveSilent | web/App.tsx:82 | a keep-alive comment frame dispatches nothing and leaves nothing behind |
| WebApp.ParseOneFrame | web/App.tsx:67-90 | a buffer holding exactly one frame dispatches that frame's event (when it has data that parses) and leaves nothing behind |
| WebApp.SseFrameRoundTrip | web/App.tsx:67-90 | a frame the server renders as `event: e\ndata: JSON\n\n` is read back by the client as exactly event `e` with the same data, leaving nothing behind |
| WebApp.FrameFieldsOfEvent | web/App.tsx:75-81 | an `event:` line followed by a `data:` line reads back as that event name with that one data line |
| WebApp.HeadEvent | web/App.tsx:82-84 | a frame with an event line and a data line that parses dispatches that event with the parsed data |
| WebApp.RecordProgress | web/App.tsx:258-260 | a label is appended unless it repeats the last one; either way it ends the list |
| WebApp.RecordProgressNoRepeats | web/App.tsx:258-260 | the progress list never holds the same label twice in a row |
| WebApp.RecordProgressIdempotent | web/App.tsx:258-260 | recording the same label twice has the effect of recording it once |
| WebApp.Visible | web/App.tsx:261 | the shown labels are the last three, or all when fewer, in order |
| WebApp.Bullets | web/App.tsx:262 | every shown label becomes one "- " bullet |
| WebApp.ThinkingTextLines | web/App.tsx:261-262 | the placeholder text is the "Thinking..." line followed by at most three bullets for the latest labels |
| WebApp.PendingReply.constructor | web/App.tsx:204-206 | a pending reply starts with no id, no text, no progress, no placeholder and no error |
| WebApp.PendingReply.OnEvent | web/App.tsx:230-275 | message_start records the assistant id and shows the thinking placeholder; a token appends its delta and shows the text; a progress label is handled as below; an error sets the error line; any other event, and any event whose payload is `null` (the callback throws and the parser swallows it), changes nothing |
| WebApp.PendingReply.OnProgress | web/App.tsx:255-269 | a non-blank label is recorded and the placeholder redrawn only once the reply has an id and before any text has arrived |
| WebApp.DeltaText | web/App.tsx:246 | a token adds its string delta, and nothing when it has none |
| WebApp.ProgressLabelOf | web/App.tsx:256 | the label taken from a progress frame is trimmed |
| WebApp.ErrorText | web/App.tsx:272 | an error frame shows its message, or "Streaming failed." when it has none |
| IntervalsWorkout.Fraction | lib/intervals-workout.ts:7 | the fractional part printed by `toFixed(2)` with trailing zeros stripped has one or two digits, does not end in 0, and reads back as the hundredths it came from |
| IntervalsWorkout.FormatNumber | lib/intervals-workout.ts:5-8 | a number prints with a decimal point exactly when it is not whole, and then ends in a non-zero digit |
| IntervalsWorkout.RenderTimeDuration | lib/intervals-workout.ts:24-36 | fails, with the empty-duration error, exactly when no part is positive; otherwise the text is non-empty |
| IntervalsWorkout.RenderDistance | lib/intervals-workout.ts:38-43 | fails, with the distance error, exactly when the value is not positive |
| IntervalsWorkout.ZoneTokenParts | lib/intervals-workout.ts:150-157 | a zone token match gives the zone's digits and, when present, a modality that is "hr" or "pace" in any case |
| IntervalsWorkout.RenderSegment | lib/intervals-workout.ts:168-246 | rendering a segment fails exactly for a cadence segment with neither a value nor both bounds, with the source's error message |
| IntervalsWorkout.SegmentTokensKeepError | lib/intervals-workout.ts:268-273 | once a segment fails to render, later segments do not change the outcome |
| IntervalsWorkout.CollectSegmentTokens | lib/intervals-workout.ts:268-273 | the loop over segments yields the rendered tokens in order, dropping empty ones, or the first segment's error |
| IntervalsWorkout.BuildWorkoutText | lib/intervals-workout.ts:248-290 | no sections is refused with the no-sections error; the text is built exactly when there are sections and every section renders |
| IntervalsWorkout.StepLines | lib/intervals-workout.ts:259-285 | when every step renders, there is one line per step |
| IntervalsWorkout.NextMatch | lib/intervals-workout.ts:336-338 | `exec` from a position finds the leftmost match at or after it, or reports that there is none |
| IntervalsWorkout.FindMatches | lib/intervals-workout.ts:332-340 | the `exec` loop collects every successive non-overlapping match, left to right |
| IntervalsWorkout.FirstMatchIndex | lib/intervals-workout.ts:342-346 | the index is the position of the leftmost match, and -1 exactly when there is no match at all |
| IntervalsWorkout.DurationAsWritten | lib/intervals-workout.ts:294 | a duration match as the pattern is written starts with a digit and is non-empty |
| IntervalsWorkout.Duration | lib/intervals-workout.ts:294 | a match of the corrected duration pattern starts with a digit and is non-empty, and every match of the pattern as written is kept unchanged |
| IntervalsWorkout.DistanceAt | lib/intervals-workout.ts:295 | a distance match starts with a digit and is non-empty |
| IntervalsWorkout.UnitEnd | lib/intervals-workout.ts:294-295 | a unit alternative matches only when a word boundary follows it |
| IntervalsWorkout.NumberAt | lib/intervals-workout.ts:294-295 | `\b\d+` matches a non-empty run of digits and takes all of it |
| IntervalsWorkout.DecimalAt | lib/intervals-workout.ts:303-304 | the decimal-metric pattern matches only at a word boundary before a digit run, a '.' and a second digit run, then one of the duration or distance units read without case, then a word boundary |
| IntervalsWorkout.DecimalEnd | lib/intervals-workout.ts:303-304 | for any unit list, a match starts at a word boundary before a digit run, then a '.', a second digit run and a listed unit read without case, ending at a word boundary |
| IntervalsWorkout.UnitEndIsUnit | lib/intervals-workout.ts:294-304 | what a unit alternative matches, read without case, is one of the listed units |
| IntervalsWorkout.ParseRepeatSuffix | lib/intervals-workout.ts:348-356 | a repeat is read only from a heading with a repeat suffix, and then the title is never empty |
| IntervalsWorkout.RepeatSuffix | lib/intervals-workout.ts:349 | a repeat suffix found in a heading is a non-empty run of digits |
| IntervalsWorkout.FirstMetricIndex | lib/intervals-workout.ts:401-403 | there is no first metric exactly when neither a duration nor a distance was found |
| IntervalsWorkout.SplitComment | lib/intervals-workout.ts:377-381 | a step has a note part exactly when it contains `#` |
| IntervalsWorkout.ParseStepLine | lib/intervals-workout.ts:358-422 | a parsed step keeps the raw line it was read from |
| IntervalsWorkout.AddStep | lib/intervals-workout.ts:434-443 | a step before any heading opens a "Workout" section holding it; otherwise it is appended to the last section and every other section is unchanged |
| IntervalsWorkout.Verdict | lib/intervals-workout.ts:459-476 | the text is valid exactly when no line had an error, there is a section, and some section has a step; a valid result carries the sections and no errors, an invalid one carries errors and no sections |
| IntervalsWorkout.Validate | lib/intervals-workout.ts:424-477 | the text is valid exactly when there are no errors, and the sections are returned exactly when it is valid |
| IntervalsWorkout.ValidateReadsAllLines | lib/intervals-workout.ts:424-477 | validation is the verdict on the reading of every line of the text |
| IntervalsWorkout.ReadLineInPlace | lib/intervals-workout.ts:430-457 | handling one line in place (mutating the current section) has the effect of the line-reading function on the sections and errors |
| IntervalsWorkout.ReadAllLines | lib/intervals-workout.ts:430-457 | the `forEach` over the lines leaves the sections and errors of reading every line in turn |
| IntervalsWorkout.ValidateWorkoutText | lib/intervals-workout.ts:424-477 | the imperative validator returns exactly the validation function's result |
| IntervalsWorkoutRender.ReadUnsigned | lib/intervals-workout.ts:5-8 | an unsigned number read back starts with a digit |
| IntervalsWorkoutRender.WholeRead | lib/intervals-workout.ts:6 | a whole number prints as its digits and reads back as itself |
| IntervalsWorkoutRender.FractionRead | lib/intervals-workout.ts:7 | digits, a point and a one- or two-digit fraction read back as the whole part plus the hundredths |
| IntervalsWorkoutRender.WholeNumberRoundTrip | lib/intervals-workout.ts:6 | a whole number, negative or not, reads back from its printed form |
| IntervalsWorkoutRender.FractionNumberRoundTrip | lib/intervals-workout.ts:7 | a fractional number, negative or not, reads back from its printed form |
| IntervalsWorkoutRender.FormatNumberRoundTrip | lib/intervals-workout.ts:5-8 | every number reads back from what `formatNumber` prints for it |
| IntervalsWorkoutRender.FormatNumberInjective | lib/intervals-workout.ts:5-8 | two numbers print alike only when they are equal |
| IntervalsWorkoutRender.ReadPart | lib/intervals-workout.ts:29-33 | a rendered duration reads back part by part, each digit run with its h, m or s unit |
| IntervalsWorkoutRender.ReadBareSeconds | lib/intervals-workout.ts:32 | digits without a unit read back as seconds |
| IntervalsWorkoutRender.RenderedParts | lib/intervals-workout.ts:24-36 | a duration with a positive part renders as its hours part, minutes part and seconds part, each present only when positive |
| IntervalsWorkoutRender.RenderTimeDurationRoundTrip | lib/intervals-workout.ts:24-36 | a duration with a positive part renders, and its text reads back as the same hours, minutes and seconds |
| IntervalsWorkoutRender.RenderTimeDurationRefuses | lib/intervals-workout.ts:25-27 | rendering fails exactly when no part is positive, with the source's message |
| IntervalsWorkoutRender.RenderTimeDurationInjective | lib/intervals-workout.ts:24-36 | different durations render to different texts |
| IntervalsWorkoutRender.SecondsSuffix | lib/intervals-workout.ts:31-33 | seconds carry the `s` suffix exactly when there are no hours and no minutes |
| IntervalsWorkoutRender.FormatNumberLastDigit | lib/intervals-workout.ts:5-8 | a positive number's printed form ends in a digit |
| IntervalsWorkoutRender.UnitAfterNumber | lib/intervals-workout.ts:42 | the unit appended after the number is read back, together with the number before it |
| IntervalsWorkoutRender.RenderDistanceRefuses | lib/intervals-workout.ts:39-41 | rendering a distance fails exactly when it is not positive, with the source's message |
| IntervalsWorkoutRender.RenderDistanceRoundTrip | lib/intervals-workout.ts:38-43 | a positive distance renders to text that reads back as the same value and unit |
| IntervalsWorkoutRender.NumLabel | lib/intervals-workout.ts:160-166 | a numeric ramp endpoint is labelled by `formatNumber` |
| IntervalsWorkoutRender.NumericRange | lib/intervals-workout.ts:206-208 | a numeric ramp's range is its start, followed by `-` and its end when it has one |
| IntervalsWorkoutRender.RenderRamp | lib/intervals-workout.ts:198-234 | a ramp segment always renders (its start is required by the type) |
| IntervalsWorkoutRender.NumericRampDefaultsToFtp | lib/intervals-workout.ts:210-226 | a numeric ramp without a unit or label renders as "ramp <range>% FTP" |
| IntervalsWorkoutRender.ZoneTokenNormalises | lib/intervals-workout.ts:153-158 | a zone token normalises to "Z<digits>", optionally followed by " HR" or " PACE" |
| IntervalsWorkoutRender.ModalityUpper | lib/intervals-workout.ts:157 | an "hr" or "pace" modality in any case upper-cases to "HR" or "PACE" |
| IntervalsWorkoutRender.IncompleteRefused | lib/intervals-workout.ts:253-264 | a section without steps, and a step with neither a duration nor a distance, are refused with the source's messages |
| IntervalsWorkoutRender.BuiltPlanComplete | lib/intervals-workout.ts:248-290 | a plan that builds has a section, every section has a step, and every step has a duration or a distance |
| IntervalsWorkoutRender.FirstSectionError | lib/intervals-workout.ts:252-287 | building fails with the error of the first section that fails |
| IntervalsWorkoutRender.SectionTextsFirstError | lib/intervals-workout.ts:252-287 | the sections' texts fail with the first failing section's error |
| IntervalsWorkoutRender.FirstStepError | lib/intervals-workout.ts:259-285 | a section's step lines fail with the first failing step's error |
| IntervalsWorkoutRoundTrip.UnitTables | lib/intervals-workout.ts:294 | the duration units are the fifteen lower-case spellings in the pattern's order: five for hours, five for minutes, five for seconds |
| IntervalsWorkoutRoundTrip.DistanceTable | lib/intervals-workout.ts:295 | the distance units are km, mi, m, meter, meters, yd and yds, in the pattern's order |
| IntervalsWorkoutRoundTrip.UnitEndFound | lib/intervals-workout.ts:294-295 | the alternation takes the first unit, in pattern order, that matches |
| IntervalsWorkoutRoundTrip.NoDurationUnitBeforeDigit | lib/intervals-workout.ts:294 | no duration unit matches when a digit follows its letter, since `\b` fails there |
| IntervalsWorkoutRoundTrip.SingleDurationUnit | lib/intervals-workout.ts:294 | a lone h, m or s after the digits is matched as a one-letter unit |
| IntervalsWorkoutRoundTrip.DistanceUnitName | lib/intervals-workout.ts:295 | every rendered distance unit is matched by the distance pattern |
| IntervalsWorkoutRoundTrip.SingleUnitDuration | lib/intervals-workout.ts:294 | a duration rendered with one part ("5m", "90s", "2h") is matched whole by the duration pattern |
| IntervalsWorkoutRoundTrip.MinutesSecondsDuration | lib/intervals-workout.ts:294 | minutes with seconds ("3m30") are matched whole by the `\d+m\d+` alternative |
| IntervalsWorkoutRoundTrip.HoursDuration | lib/intervals-workout.ts:29-32 | hours followed by minutes or seconds ("1h30m", "1h30", "1h30m15") are matched whole by the corrected pattern's hours alternative |
| IntervalsWorkoutRoundTrip.DurationTokenFound | lib/intervals-workout.ts:24-36 | every rendered duration, standing alone in a line, is matched whole by the corrected duration pattern |
| IntervalsWorkoutRoundTrip.DistanceTokenFound | lib/intervals-workout.ts:295 | every rendered whole distance, standing alone in a line, is matched whole by the distance pattern |
| IntervalsWorkoutRoundTrip.MinutesTail | lib/intervals-workout.ts:30-32 | what follows the hours in a duration with minutes is "m" and then only digits |
| IntervalsWorkoutRoundTrip.StepLineErrors | lib/intervals-workout.ts:358-397 | an empty step gets the empty-step error; otherwise its errors are those for a comment, a decimal metric and a missing metric |
| IntervalsWorkoutRoundTrip.CleanStepLine | lib/intervals-workout.ts:358-397 | a step line without `#` and without a '.' directly before a digit that holds a duration or distance parses with no error |
| IntervalsWorkoutRoundTrip.NoStepErrors | lib/intervals-workout.ts:377-397 | a step without a '.' directly before a digit and with a metric raises none of the three step errors |
| IntervalsWorkoutRoundTrip.NoDecimals | lib/intervals-workout.ts:303-304 | text with no '.' directly before a digit has no decimal-metric match, so a sentence-ending period is harmless |
| IntervalsWorkoutRoundTrip.CollapseNoDotDigit | lib/intervals-workout.ts:278-283 | collapsing whitespace never puts a digit right after a '.' |
| IntervalsWorkoutRoundTrip.CleanJoin | lib/intervals-workout.ts:278-283 | joining clean parts with spaces gives clean text |
| IntervalsWorkoutRoundTrip.NoComment | lib/intervals-workout.ts:377-381 | a step without `#` has no note part |
| IntervalsWorkoutRoundTrip.JoinRest | lib/intervals-workout.ts:278-283 | joining the tokens puts the first token at the start of the metrics |
| IntervalsWorkoutRoundTrip.MetricTokensFirst | lib/intervals-workout.ts:265-267 | the first token of a step is its rendered duration, or its rendered distance when it has no duration |
| IntervalsWorkoutRoundTrip.StepLineText | lib/intervals-workout.ts:259-284 | a rendered step line is "- " followed by the collapsed prompt, notes and metric tokens |
| IntervalsWorkoutRoundTrip.FirstTokenFound | lib/intervals-workout.ts:393-396 | a line whose first token is a rendered duration or whole distance has a metric for the validator |
| IntervalsWorkoutRoundTrip.BuiltStepLine | lib/intervals-workout.ts:259-284 | every rendered step line of a clean step starts with "- " and its content passes the step checks |
| IntervalsWorkoutRoundTrip.RepeatHeadingParse | lib/intervals-workout.ts:348-356 | a heading rendered as "<title> <n>x" reads back as that title with repeat n |
| IntervalsWorkoutRoundTrip.PlainHeadingParse | lib/intervals-workout.ts:348-356 | a heading without a repeat suffix reads back as itself with no repeat |
| IntervalsWorkoutRoundTrip.HeadingRead | lib/intervals-workout.ts:256-258 | a rendered heading is a trimmed single line that does not start with "-", and reads back as the section's title and repeat |
| IntervalsWorkoutRoundTrip.StepLinesEach | lib/intervals-workout.ts:259-285 | when a section's steps render, the k-th line is the k-th step's line |
| IntervalsWorkoutRoundTrip.SectionTextsEach | lib/intervals-workout.ts:252-287 | when a plan's sections render, the j-th text is the j-th section's text |
| IntervalsWorkoutRoundTrip.SectionTextBlock | lib/intervals-workout.ts:286 | a section's text is its heading and step lines joined by newlines |
| IntervalsWorkoutRoundTrip.LayoutJoin | lib/intervals-workout.ts:286-289 | joining section texts with blank lines gives the heading, step and blank lines of the whole plan |
| IntervalsWorkoutRoundTrip.LayoutOneLine | lib/intervals-workout.ts:256-289 | no line of a clean plan's layout contains a line break, so splitting the text gives the layout back |
| IntervalsWorkoutRoundTrip.StepsFromEach | lib/intervals-workout.ts:442 | consecutive step lines are parsed with their own one-based line numbers |
| IntervalsWorkoutRoundTrip.ReadBlankLine | lib/intervals-workout.ts:431-432 | a blank line changes nothing |
| IntervalsWorkoutRoundTrip.ReadHeadingLine | lib/intervals-workout.ts:450-456 | a heading line opens a new, empty section with its title and repeat |
| IntervalsWorkoutRoundTrip.ReadStepLine | lib/intervals-workout.ts:434-447 | a step line without errors is added to the current section |
| IntervalsWorkoutRoundTrip.AddStepToLast | lib/intervals-workout.ts:443 | a step goes into the last section, which keeps its title and repeat |
| IntervalsWorkoutRoundTrip.ReadFromAppend | lib/intervals-workout.ts:430-457 | reading two runs of lines is reading the first and then the second |
| IntervalsWorkoutRoundTrip.ReadBlock | lib/intervals-workout.ts:430-457 | reading a section's heading and step lines adds exactly that section with its steps |
| IntervalsWorkoutRoundTrip.ReadViews | lib/intervals-workout.ts:430-457 | reading the stacked blocks of a plan, separated by blank lines, adds one section per block, in order |
| IntervalsWorkoutRoundTrip.ReadLayout | lib/intervals-workout.ts:430-457 | reading the whole layout of a readable plan gives the expected sections and no errors |
| IntervalsWorkoutRoundTrip.ExpectedOfShape | lib/intervals-workout.ts:306-324 | each expected section has its block's title and repeat, and one step per step line, keeping the raw line |
| IntervalsWorkoutRoundTrip.CleanPlanReadable | lib/intervals-workout.ts:248-290 | with the corrected duration pattern, every heading and step line of a clean plan reads without error |
| IntervalsWorkoutRoundTrip.BuiltTextLines | lib/intervals-workout.ts:286-289 | splitting a built plan's text at newlines gives its layout |
| IntervalsWorkoutRoundTrip.ExpectedHasSteps | lib/intervals-workout.ts:462 | the expected sections of a rendered plan include a step |
| IntervalsWorkoutRoundTrip.ValidateBuilt | lib/intervals-workout.ts:424-477 | the validator accepts a clean plan's built text with no errors and returns its expected sections |
| IntervalsWorkoutRoundTrip.ExpectedSections | lib/intervals-workout.ts:424-477 | the expected sections have the plan's titles, repeats and step counts, and each step's raw line is the step line the builder wrote |
| IntervalsWorkoutRoundTrip.DecimalDistanceToken | lib/intervals-workout.ts:38-43 | a distance of 1.5 kilometres renders as "1.5km" |
| IntervalsWorkoutRoundTrip.BareDistanceLine | lib/intervals-workout.ts:259-284 | a step with only a distance is written as "- " and the distance token |
| IntervalsWorkoutRoundTrip.DecimalDistanceLine | lib/intervals-workout.ts:259-284 | a step of 1.5 kilometres is written as the line "- 1.5km" |
| IntervalsWorkoutRoundTrip.DecimalUnitAfterFraction | lib/intervals-workout.ts:303-304 | in "1.5km" the unit alternative after the fraction matches "km" |
| IntervalsWorkoutRoundTrip.DecimalDistanceMatches | lib/intervals-workout.ts:303-304 | the decimal-metric pattern finds a match in "1.5km" |
| IntervalsWorkoutRoundTrip.DecimalDistanceError | lib/intervals-workout.ts:387-392 | the step line "- 1.5km" gets the whole-number error, whatever the duration pattern |
| IntervalsWorkoutRoundTrip.DecimalDistanceBuilt | lib/intervals-workout.ts:248-290 | a one-section plan with one step of 1.5 kilometres builds to its title and the line "- 1.5km" |
| IntervalsWorkoutRoundTrip.DecimalDistanceRejected | lib/intervals-workout.ts:424-477 | the validator refuses that built text, whatever the duration pattern |
| IntervalsWorkoutRoundTrip.BuildThenValidate | lib/intervals-workout.ts:424-477 | with the corrected duration pattern, what the builder writes for a clean plan validates, with as many sections as the plan, each with its title, repeat and step count, and each step's raw line being the builder's line for that step |
| IntervalsWorkoutRoundTrip.HoursMinutesToken | lib/intervals-workout.ts:29-30 | 1 hour 30 minutes renders as "1h30m" |
| IntervalsWorkoutRoundTrip.HoursMinutesLine | lib/intervals-workout.ts:259-284 | a step of 1 hour 30 minutes renders as the line "- 1h30m" |
| IntervalsWorkoutRoundTrip.HoursMinutesNoDuration | lib/intervals-workout.ts:294 | the duration pattern as written finds no duration in "1h30m" |
| IntervalsWorkoutRoundTrip.HoursMinutesNoDistance | lib/intervals-workout.ts:295 | the distance pattern finds no distance in "1h30m" |
| IntervalsWorkoutRoundTrip.MissingMetric | lib/intervals-workout.ts:393-397 | a step in which neither pattern matches gets the missing-metric error |
| IntervalsWorkoutRoundTrip.HoursMinutesMissing | lib/intervals-workout.ts:393-397 | with the pattern as written, the step "- 1h30m" gets the missing-metric error |
| IntervalsWorkoutRoundTrip.OneStepText | lib/intervals-workout.ts:286-289 | a plan of one section with one step builds as the title, a newline and the step line |
| IntervalsWorkoutRoundTrip.StepErrorInvalid | lib/intervals-workout.ts:444-470 | a step error on the second line makes the text invalid |
| IntervalsWorkoutRoundTrip.HoursMinutesBuilt | lib/intervals-workout.ts:248-290 | the builder writes a one-step plan of 1 hour 30 minutes as the title followed by "- 1h30m" |
| IntervalsWorkoutRoundTrip.HoursMinutesRejected | lib/intervals-workout.ts:294 | with the duration pattern as written, the validator rejects that text |
| IntervalsCli.LeadingZerosValue | scripts/intervals-cli.ts:104-112 | zeros added by `padStart` do not change the digits' value |
| IntervalsCli.Field | scripts/intervals-cli.ts:104-112 | a padded field is at least two digits long, exactly two below 100, and reads back as its number |
| IntervalsCli.FormatDuration | scripts/intervals-cli.ts:102-114 | a present duration prints as at least eight characters with ':' before the two-digit minutes and seconds fields |
| IntervalsCli.ClockFields | scripts/intervals-cli.ts:113 | the clock text splits at its colons into exactly the hours, minutes and seconds fields |
| IntervalsCli.ClockRead | scripts/intervals-cli.ts:102-114 | a clock text reads back as hours × 3600 + minutes × 60 + seconds |
| IntervalsCli.DurationBounds | scripts/intervals-cli.ts:102-114 | a formatted duration has three all-digit fields, the first at least two digits and the others exactly two, holding the whole hours and the minutes and seconds below 60 |
| IntervalsCli.FormatDurationRoundTrip | scripts/intervals-cli.ts:102-114 | reading a formatted duration back gives the number of seconds it was formatted from |
| IntervalsCli.FormatDurationEmpty | scripts/intervals-cli.ts:103 | the text is empty exactly when the seconds are missing |
| IntervalsCli.FormatDurationInjective | scripts/intervals-cli.ts:102-114 | different numbers of seconds format differently |
| IntervalsCli.FormatValue | scripts/intervals-cli.ts:159-162 | a missing or null value prints as the empty string, a string as itself and a whole number as its decimal digits |
| IntervalsCli.FormatValueNumbers | scripts/intervals-cli.ts:159-162 | different whole numbers print differently |
| IntervalsCli.Keys | scripts/intervals-cli.ts:117 | the headers are the first row's keys, in order |
| IntervalsCli.Cell | scripts/intervals-cli.ts:130 | a row's cell for a header is its value under that header, or "" when the row lacks that key |
| IntervalsCli.LongestCell | scripts/intervals-cli.ts:121 | the longest cell in a column is at least as long as each cell, and is the length of some cell (or 0) |
| IntervalsCli.ColumnWidth | scripts/intervals-cli.ts:118-123 | a column is as wide as the longer of its header and its longest cell |
| IntervalsCli.Widths | scripts/intervals-cli.ts:118-123 | there is one width per header, each that header's column width |
| IntervalsCli.RowCells | scripts/intervals-cli.ts:127-133 | a row gives one cell per header, in header order |
| IntervalsCli.Dashes | scripts/intervals-cli.ts:125 | each column's part of the divider is its width plus two dashes |
| IntervalsCli.Padded | scripts/intervals-cli.ts:129-132 | each cell is padded to its column's width with one space on each side |
| IntervalsCli.RenderTable | scripts/intervals-cli.ts:116-144 | the table prints four lines more than it has rows |
| IntervalsCli.RowLines | scripts/intervals-cli.ts:142 | one line per row, each the formatted cells of that row |
| IntervalsCli.JoinLength | scripts/intervals-cli.ts:125 | joining with a one-character separator adds one character per gap |
| IntervalsCli.JoinPart | scripts/intervals-cli.ts:125 | each joined part sits unchanged at its offset in the joined line |
| IntervalsCli.JoinSeparator | scripts/intervals-cli.ts:133 | the separator follows every part but the last |
| IntervalsCli.PaddedFit | scripts/intervals-cli.ts:131 | a padded cell that fits is exactly its width plus two |
| IntervalsCli.LineLayout | scripts/intervals-cli.ts:127-133 | a row's line holds each cell, left-aligned after one space and padded with spaces, at its column's offset, with `\|` between columns |
| IntervalsCli.ColumnCell | scripts/intervals-cli.ts:130-131 | each cell appears at its column's offset |
| IntervalsCli.ColumnBar | scripts/intervals-cli.ts:133 | columns are separated by `\|` |
| IntervalsCli.DividerLayout | scripts/intervals-cli.ts:125 | the divider is dashes over the full width of every column |
| IntervalsCli.DashesAt | scripts/intervals-cli.ts:125 | each column's span of the divider is all dashes |
| IntervalsCli.TableLines | scripts/intervals-cli.ts:135-143 | lines 1, 3 and the last are the divider, line 2 the headers, and the lines in between the rows in order |
| IntervalsCli.TableRow | scripts/intervals-cli.ts:142 | the line after the header block for row k is row k's line |
| IntervalsCli.WidthsFit | scripts/intervals-cli.ts:118-123 | every header and every cell fits its column |
| IntervalsCli.TableLayoutOf | scripts/intervals-cli.ts:125-143 | when the widths fit, the dividers are dashed and every header and row line is laid out column by column |
| IntervalsCli.RowLayout | scripts/intervals-cli.ts:142 | each row line is laid out column by column |
| IntervalsCli.TableLayout | scripts/intervals-cli.ts:116-144 | the rendered table's dividers, header line and row lines line up column by column |
| IntervalsCli.LineLengthsOf | scripts/intervals-cli.ts:125-143 | every line of the table is equally long |
| IntervalsCli.TableLineLengths | scripts/intervals-cli.ts:116-144 | every line of the rendered table is equally long: the column widths plus two per column plus the separators |
| IntervalsCli.ListingTable | scripts/intervals-cli.ts:67-90 | no activities print one line; otherwise the count line, a blank line and then the table |
| WeatherTool.CappedHours | lib/weather-tool.ts:137 | the hour count is clamped to 1..72: kept when in range, raised to 1 below it, lowered to 72 above it |
| WeatherTool.CappedHoursStable | lib/weather-tool.ts:137 | clamping twice is clamping once, and clamping keeps the order of hour counts |
| WeatherTool.ResolvedTimeZone | lib/weather-tool.ts:136 | the time zone is the trimmed one given, or "auto" when that is blank; it is never empty |
| WeatherTool.ResolvedTimeZoneStable | lib/weather-tool.ts:136 | resolving a resolved time zone changes nothing |
| WeatherTool.ValueAt | lib/weather-tool.ts:78 | a missing column gives null, and an array column gives its i-th element, or null past its end |
| WeatherTool.TimeValues | lib/weather-tool.ts:71-72 | the time values are the section's `time` array, and nothing when the section is missing |
| WeatherTool.Values | lib/weather-tool.ts:76-91 | an entry holds one value per column, under the column's output name, taken at the same index from that column's source field |
| WeatherTool.EntryFields | lib/weather-tool.ts:76-91 | an entry's time field is the time at that index, and each column's field is that column's value at the same index |
| WeatherTool.MissingValueNull | lib/weather-tool.ts:78 | a missing column, or one too short, gives null |
| WeatherTool.PickHourlyEntries | lib/weather-tool.ts:70-95 | the loop returns min(number of times, hours ahead) entries, none for a non-positive count, the i-th built from index i |
| WeatherTool.PickEntries | lib/weather-tool.ts:73-93 | the loop keeps the first `limit` time values, each turned into the entry for its index |
| WeatherTool.MapDailyEntries | lib/weather-tool.ts:97-110 | there is one daily entry per time value, the i-th built from index i |
| WeatherTool.HourlyNames | lib/weather-tool.ts:76-91 | the hourly entry's field names are all different |
| WeatherTool.DailyNames | lib/weather-tool.ts:100-109 | the daily entry's field names are all different |
| WeatherTool.HourlyAligned | lib/weather-tool.ts:76-91 | an hourly entry's time and every column's value come from the same index |
| WeatherTool.DailyAligned | lib/weather-tool.ts:100-109 | a daily entry's date and every column's value come from the same index |
| WeatherTool.NoHourlyTimes | lib/weather-tool.ts:71-72 | a missing section, or a `time` field that is missing or not an array, gives no time values |

## Left out

- Network and HTTP glue is not modelled. This covers the Intervals.icu client, the Open-Meteo fetch and URL building, the Telegram Bot API, the message queue, the request adapters and the OAuth token exchange; the exchange is a function parameter of `WebOAuth`.
- The agent runtime (`run`, the agent configuration, `AsyncLocalStorage` session context) is outside the model. A run is a finite sequence of stream events that either completes or fails after some of them.
- Concurrency is not modelled. This covers read-modify-write races on the key-value store, the non-atomic get-then-delete of the one-shot tokens, the keep-alive `setInterval` of the stream and caller aborts. The stream is modelled through its `closed` flag and its frame order only.
- Key expiry is not simulated. A record is written with its expiry, and an expired record is an absent key.
- Nondeterminism is modelled as parameters. `crypto.randomUUID`, `Math.random` and `Date.now` are passed in, and timestamps are integers.
- Floating point numbers are not modelled. Segment values and distances are hundredths; weather coordinates and the kilometre column of the activity listing are not modelled.
- IntervalsWorkout.FormatNumber: stated on hundredths, so the rounding `toFixed(2)` applies to numbers with more decimals is not modelled.
- IntervalsWorkoutRender.RenderTimeDurationRoundTrip: duration parts are whole non-negative numbers. Negative or fractional parts, which the builder would print, are not modelled.
- IntervalsWorkoutRoundTrip.BuildThenValidate: holds for clean plans only (`CleanPlan`). Prompts, notes and rendered text segments have no '#' and no '.' directly before a digit. Distances are whole units, a value divisible by 100 in hundredths. Titles are non-empty, have no surrounding whitespace or line break, and do not start with '-'. Repeat counts are positive. A title of a section without repeats does not end in " <n>x". The validator refuses some other plans the builder writes: a '#' raises the comment error, a title starting with '-' reads as a step, and a title ending in " <n>x" reads as a repeat. The '.'-before-digit condition is stronger than needed, because the decimal error also needs a unit after the fraction.
- Decimal distances: the input schema accepts any positive distance, and the builder prints a fractional one with a decimal point ("1.5km"). The validator refuses such a line with its whole-number error, with either duration pattern (`IntervalsWorkoutRoundTrip.DecimalDistanceBuilt`, `IntervalsWorkoutRoundTrip.DecimalDistanceRejected`). Which side is intended is not evident, so both are modelled as written.
- IntervalsCli.FormatDurationRoundTrip: seconds are natural numbers. Negative or fractional seconds are not modelled.
- The percent, zone, power, cadence, ramp and pace patterns of the workout validator are matcher parameters, because only the steps' metric checks depend on their matches. The duration, distance and decimal-metric patterns are written out.
- WebChatApi.GenerateTitleFromFirstMessage: the Unicode letter and number classes are a parameter, and upper-casing of the first character is ASCII only.
- Case mapping everywhere is ASCII only, and there is no Unicode normalisation.
- Strings are sequences of Unicode code points, so every length is counted in code points, where JavaScript's `length` counts UTF-16 code units. Text outside the Basic Multilingual Plane, such as an emoji, counts 1 here and 2 in JavaScript. So the model does not capture such text in the lengths that matter: the 4096-character split of `TelegramWebhook.ChunkMessage`, the 52-character title cap of `WebChatApi.GenerateTitleFromFirstMessage`, the limit of `RunStreamUtils.Truncate` and the column widths of `IntervalsCli.RenderTable`.
- TelegramWebhook.Respond: the update body is a parsed JSON object with a numeric `update_id`. A body that parses to `null` makes the source throw when it reads `update_id`. Another non-object body, or one without `update_id`, gives a lock key ending in ":undefined". Neither case is modelled.
- React rendering and state in the web client are not modelled, apart from the stream parser and the progress-label de-duplication.
- `getFinalResponseText`, the greeting, the command-line chat loop, the session and time-zone tools and the workout tool's `JSON.parse` and schema checks are not modelled. The workout tool's build-then-validate composition is covered for clean plans by `IntervalsWorkoutRoundTrip.BuildThenValidate`.
- Some tests expect behaviour the code does not have, and the model follows the code:
  - the session store has no `maxItems` trimming and no repair of orphaned tool outputs;
  - the history cleaner drops every reasoning item, including ones followed by a message;
  - `buildIntervalsInstruction` takes the athlete id as a string, not an object.
- The visited-set guard of the recursive large-tool scan has nothing to do on finite JSON trees, so it is not modelled.
- Each file's set of large tool names is its own constant, and the shared filter takes the set as a parameter.

## Findings

| source | as written | input that shows it | evidently intended | confidence | as-written member | corrected member |
|---|---|---|---|---|---|---|
| lib/intervals-workout.ts:294 | The duration pattern needs a word boundary after the unit, and its only two-part alternative is minutes followed by seconds. So "1h30m" has no duration match: there is no boundary between "h" and "3", and none before "30". | A plan with one step of 1 hour 30 minutes. The builder writes "- 1h30m" and the validator reports that the step is missing a duration or distance. | The validator accepts every duration the builder writes, hours with minutes or seconds included. | high, not executed | IntervalsWorkoutRoundTrip.HoursMinutesRejected | IntervalsWorkoutRoundTrip.BuildThenValidate |
| telegram/webhook.ts:135 | `ensureIntervalsInstruction` passes the object `{ athleteId }` to `buildIntervalsInstruction`, which expects the id string. The object is always truthy and prints as "[object Object]". | A session with athlete id "i123": the instruction names athlete "[object Object]". With no id, it still names that athlete instead of asking for the id. | The instruction is built from `state.athleteId` itself. | high, not executed | TelegramWebhook.InstructionAsWrittenNamesObject | TelegramWebhook.EnsureIntervalsInstruction |
