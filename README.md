# claude-code-hub gateway core, in Dafny

claude-code-hub is a gateway for the Anthropic Messages API. Clients call `/v1/...` with one of
the hub's own API keys. The hub then does the following in order:
- it authenticates the key;
- it picks an upstream provider, reusing the one from the client's previous request when possible;
- it records a billing row;
- it forwards the request with the provider's credentials;
- when the response arrives, it records the duration and the cost, computed from the token usage
  and the model's price table.

An admin dashboard manages the users, keys, providers and price tables behind it, through server
actions.

This project models that core:
- the SSE decoder;
- cost and usage bookkeeping;
- header rewriting and URL building;
- gateway and dashboard authentication;
- provider selection;
- the per-request session and its pipeline;
- the validators, schemas and row transformers;
- the five tables as classes over sequences of rows;
- the admin actions, including the usage statistics chart;
- the path-gating middleware.

Every operation carries a contract stating what the code promises, and lemmas relate the
operations to one another.

Clocks and random draws are method parameters. So are `JSON.parse`/`JSON.stringify`, URL
parsing, ISO date formatting and `describe` (which renders a validation error).

Modules:
- Shared helpers: `Wrappers`, `Strings`, `Json`, `Seqs`, `Domain`, `Constants`, `ActionTypes`.
- One module per source file.

## Model

| member | source | states |
|---|---|---|
| ActionTypes.NewKeyString | src/actions/keys.ts:36 | a generated key is `sk-` followed by the 32 drawn hex digits, 35 characters in all |
| ActionTypes.DatePart | src/actions/providers.ts:32-33 | `split('T')[0]` is a prefix of the timestamp without a `T`, and the timestamp continues with `T` right after it |
| ActionTypes.DateOfTimestamp | src/actions/providers.ts:32-33 | the date part of `date + "T" + time` is `date` |
| Auth.AdminSession | src/lib/auth.ts:19-41 | the synthetic admin: user id -1, role admin, rpm 0, quota 0; key id -1 owned by -1, key string = input, enabled |
| Auth.ValidateKey | src/lib/auth.ts:16-55 | the admin token wins with no lookup; otherwise no active key gives null, a missing owner gives null, else `{user, key}` |
| Auth.DashboardSessionImpliesGatewayAccess | src/lib/auth.ts:44-54 | a non-admin dashboard session holds an enabled key with that string owned by a live user, and the gateway accepts the same string |
| Auth.NoTokenNoBypass | src/lib/auth.ts:17-18 | an unset admin token and an empty one behave the same: no bypass, every session comes from the key table |
| Auth.GetSession | src/lib/auth.ts:78-85 | no cookie or an empty cookie gives null, otherwise `validateKey(cookie)` |
| AuthGuard.BearerCapture | src/app/v1/_lib/proxy/auth-guard.ts:63 | the regex capture is non-empty and starts with a non-whitespace character |
| AuthGuard.ExtractKeyFromAuthorization | src/app/v1/_lib/proxy/auth-guard.ts:53-69 | an absent or blank header gives null; any key found is non-empty and trimmed |
| AuthGuard.NormalizeKey | src/app/v1/_lib/proxy/auth-guard.ts:71-78 | the trimmed value, and null exactly when it is absent or trims to nothing |
| AuthGuard.BearerTokenIsExtracted | src/app/v1/_lib/proxy/auth-guard.ts:58-68 | `Bearer` in any letter case, a whitespace gap and a token yield the token |
| AuthGuard.OtherSchemesYieldNothing | src/app/v1/_lib/proxy/auth-guard.ts:63-66 | a header whose trimmed text does not start with `bearer` in some case yields nothing |
| AuthGuard.SuppliedKey | src/app/v1/_lib/proxy/auth-guard.ts:28-43 | no key when neither header yields one; a mismatch exactly when both yield different keys; otherwise the one non-empty key supplied |
| AuthGuard.Validate | src/app/v1/_lib/proxy/auth-guard.ts:21-51 | no key or a mismatch fails with user and apiKey null; a single key is kept as apiKey; success iff a user is set, and then the key lookup found that user |
| AuthGuard.ValidateSucceedsIffKeyIsActive | src/app/v1/_lib/proxy/auth-guard.ts:32-50 | success iff exactly one key is supplied and some active key row with that string has a live owner; there is no admin-token path |
| AuthGuard.AgreeingHeadersSupplyOneKey | src/app/v1/_lib/proxy/auth-guard.ts:36-41 | the same key in both headers counts as one key |
| AuthGuard.Ensure | src/app/v1/_lib/proxy/auth-guard.ts:7-19 | the auth state is always stored on the session; the result is null iff success, otherwise the fixed 401; provider and context are untouched |
| Cost.Term | src/lib/utils/cost-calculation.ts:21-38 | a term contributes `tokens × price` when both are present and 0 when either is missing, never an error |
| Cost.CalculateRequestCost | src/lib/utils/cost-calculation.ts:9-41 | the four conditional `+=` steps compute exactly `RequestCost`, the sum of the four terms |
| Cost.EmptyUsageIsFree | src/lib/utils/cost-calculation.ts:18-40 | empty usage costs 0 |
| Cost.NoPricesIsFree | src/lib/utils/cost-calculation.ts:21-38 | a price table without any of the four price fields makes every request free |
| Cost.CostIsNonNegative | src/lib/utils/cost-calculation.ts:21-38 | non-negative token counts and prices give a non-negative cost |
| Cost.TermMonotone | src/lib/utils/cost-calculation.ts:21-38 | with a non-negative price, more tokens never make a term smaller |
| Cost.CostIsMonotone | src/lib/utils/cost-calculation.ts:21-38 | the cost is monotone in each of the four token counts |
| Cost.OtherPriceFieldsAreIgnored | src/lib/utils/cost-calculation.ts:21-38 | a price field other than the four read here never changes the cost |
| Cost.CostIsSumOfProducts | src/lib/utils/cost-calculation.ts:18-40 | with all counts and prices present the cost is the sum of the four products |
| Sse.Flush | src/lib/utils/sse.ts:12-30 | the name and data are always reset; a record `(name, joined data)` is appended iff both are non-empty, otherwise the frame is dropped |
| Sse.ParseSseData | src/lib/utils/sse.ts:6-63 | the line loop with its final flush computes exactly `Decode(text)` |
| Sse.RunKeepsNamedEvents | src/lib/utils/sse.ts:34-58 | every record emitted so far has a non-empty trimmed event name, and the current name stays trimmed |
| Sse.FlushKeepsNamedEvents | src/lib/utils/sse.ts:13-23 | a flush only emits a record with a non-empty trimmed name |
| Sse.DecodedEventsAreNamed | src/lib/utils/sse.ts:13-47 | every decoded record has a non-empty, trimmed event name |
| Sse.RunEmitsAtBoundariesOnly | src/lib/utils/sse.ts:34-58 | the records already emitted are kept in order, and at most one new record is emitted per blank line |
| Sse.DecodedCountBound | src/lib/utils/sse.ts:32-62 | there are at most (blank lines + 1) records |
| Sse.FramesAreIndependent | src/lib/utils/sse.ts:14-29 | after a flush the decoder state is clean, so what follows decodes as if from the start; data never leaks across frames |
| Sse.FramesAreIndependentStep | src/lib/utils/sse.ts:34-58 | decoding depends on the pending frame only, not on the records already emitted |
| Sse.SplitCrLf | src/lib/utils/sse.ts:32 | splitting CRLF text on `\n` gives the LF lines, each with a trailing `\r` |
| Sse.StepIgnoresCr | src/lib/utils/sse.ts:35 | a trailing `\r` on a line changes nothing, because of `trimEnd` |
| Sse.RunIgnoresCr | src/lib/utils/sse.ts:34-58 | lines that differ only by trailing `\r` decode the same |
| Sse.CrLfDecodesAsLf | src/lib/utils/sse.ts:32-35 | CRLF input decodes exactly as the same text with LF line ends |
| Sse.DataLineStep | src/lib/utils/sse.ts:51-57 | a `data:` line appends its value to the pending data lines and changes nothing else |
| Sse.DataLine | src/lib/utils/sse.ts:52-56 | after `data:` exactly one leading space is removed and nothing else |
| Sse.EventLine | src/lib/utils/sse.ts:46-49 | an `event:` line replaces the pending name with its trimmed value, so a later one overwrites an earlier one |
| Sse.IgnoredLines | src/lib/utils/sse.ts:34-58 | comment lines and lines with any other field prefix leave the decoder unchanged |
| Sse.UnterminatedFrameIsEmitted | src/lib/utils/sse.ts:60 | a frame without a trailing blank line is still emitted by the final flush |
| Sse.NamedFrameWithoutDataIsDropped | src/lib/utils/sse.ts:13-17 | a frame with a name but no data line produces no record |
| ErrorHandler.FailureMessage | src/app/v1/_lib/proxy/error-handler.ts:15 | an Error's own message, otherwise the fixed fallback |
| ErrorHandler.Handle | src/app/v1/_lib/proxy/error-handler.ts:7-17 | the duration is written iff a message context exists, and nothing else in the table changes; the response is always a 500 with that message |
| ErrorHandler.FailureIsReported | src/app/v1/_lib/proxy/error-handler.ts:15-16 | the error body carries the message and the type `500`; an Error's message appears verbatim |
| Forwarder.OutboundKey | src/app/v1/_lib/proxy/forwarder.ts:34 | the provider's key after a successful authentication, otherwise the placeholder `000` |
| Forwarder.OverridesAreLowerCase | src/app/v1/_lib/proxy/forwarder.ts:35-42 | the three override names are already lower case, so the header processor stores them as written |
| Forwarder.ProxySettings | src/app/v1/_lib/proxy/forwarder.ts:35-42 | the forwarder adds nothing to the default blacklist and overrides exactly host, authorization and x-api-key |
| Forwarder.BuildHeaders | src/app/v1/_lib/proxy/forwarder.ts:26-45 | the outbound headers are `OutboundHeaders` of the session: a copy when auth state or provider is missing, otherwise the processed headers |
| Forwarder.OutboundRequest | src/app/v1/_lib/proxy/forwarder.ts:6-24 | fails iff provider or auth state is missing; the method is kept; the URL is `buildProxyUrl(provider.url, requestUrl)`; a body is attached iff the method is not GET/HEAD and a buffer exists, and it is that buffer |
| Forwarder.Send | src/app/v1/_lib/proxy/forwarder.ts:6-24 | the request `send` hands to `fetch` is `OutboundRequest` of the session |
| Forwarder.CallerCredentialsNeverReachUpstream | src/app/v1/_lib/proxy/forwarder.ts:34-44 | whatever the caller sent, authorization is `Bearer <key>`, x-api-key is the key and host is the provider's host |
| Forwarder.OtherHeadersPassThrough | src/app/v1/_lib/proxy/forwarder.ts:35-44 | `x-forwarded-*` headers are dropped; every other caller header except the three overridden ones passes through unchanged |
| Headers.DefaultBlacklist | src/app/v1/_lib/headers.ts:22-32 | the four `x-forwarded-*` names, plus `authorization` exactly when `preserveAuthorization` is not set |
| Headers.LowerAll | src/app/v1/_lib/headers.ts:34-36 | the blacklist holds the lower-cased names given and nothing else |
| Headers.LowerEntries | src/app/v1/_lib/headers.ts:39-41 | override keys are lower-cased; the map holds exactly those keys, and each key takes the value of the last entry whose name lower-cases to it |
| Headers.Processed | src/app/v1/_lib/headers.ts:47-69 | the output holds exactly the non-blacklisted inputs and the override keys; overrides win, even over blacklisted names; surviving inputs keep their values |
| Headers.HeaderProcessor.constructor | src/app/v1/_lib/headers.ts:20-42 | the blacklist is the default one plus the configured names, lower-cased; the overrides are the configured ones with lower-cased keys |
| Headers.HeaderProcessor.Process | src/app/v1/_lib/headers.ts:47-69 | the two `forEach` loops build exactly `Processed(headers, blacklist, overrides)`; the input map is a value and is not changed |
| Headers.HeaderProcessor.CreateForProxy | src/app/v1/_lib/headers.ts:88-94 | a fresh processor whose `preserveAuthorization` defaults to false unless the config sets it |
| Headers.BlacklistedNamesAreDropped | src/app/v1/_lib/headers.ts:51-66 | a blacklisted name that is not an override never appears in the output |
| Headers.ProcessIsIdempotent | src/app/v1/_lib/headers.ts:47-69 | with overrides disjoint from the blacklist, processing twice is processing once |
| Headers.UpToSlash | src/app/v1/_lib/headers.ts:80 | the `[^/]+` run: a slash-free prefix that ends at the first `/` or at the end |
| Headers.HostByPattern | src/app/v1/_lib/headers.ts:80-81 | a host matched after `http(s)://` is non-empty and has no `/` |
| Headers.ExtractHost | src/app/v1/_lib/headers.ts:74-83 | the parsed URL's host; otherwise the text after `http(s)://` up to the first `/`; otherwise `localhost`; it never fails |
| Headers.HostByPatternRecoversHost | src/app/v1/_lib/headers.ts:80-81 | for `http(s)://host/path` the pattern yields exactly `host` |
| Headers.OtherSchemesFallBackToLocalhost | src/app/v1/_lib/headers.ts:78-82 | an unparsable base URL that is not `http(s)://` gives `localhost` |
| KeyActions.Expiry | src/actions/keys.ts:43 | an expiry is stored exactly when a non-empty `expiresAt` was given |
| KeyActions.AppendKeepsNamesUnique | src/actions/keys.ts:30-44 | adding a key whose name no active key of the same user has keeps active names unique per user |
| KeyActions.AddKey | src/actions/keys.ts:12-55 | no session gives `未登录`; a non-admin adding for someone else gives the permission error; an invalid form gives its error; a clashing active name gives the duplicate error and nothing is stored; otherwise exactly one enabled `sk-` key is appended and returned; any failure leaves the table unchanged; unique active names are preserved |
| KeyActions.EditPatch | src/actions/keys.ts:80-83 | the patch is never empty, always sets the name, never the enabled flag, and passes `undefined` for the expiry exactly when the form gave none |
| KeyActions.EditKeepsIdentity | src/actions/keys.ts:80-83 | an edited key keeps its id, owner, key string and enabled flag, takes the new name, and keeps its old expiry when none is given |
| KeyActions.EditKey | src/actions/keys.ts:58-92 | no session, a missing key (`密钥不存在`), a caller who is neither admin nor owner, or an invalid form each fail with no change; otherwise exactly the live row with that id is patched |
| KeyActions.DeletionCounts | src/actions/keys.ts:112-117 | soft-deleting one live key lowers its owner's live-key count by one and nobody else's |
| KeyActions.RemoveKey | src/actions/keys.ts:95-125 | the same guards as editKey; an owner with at most one live key is refused; otherwise the key is no longer found and only its owner's live-key count drops by one; no user with a live key is left without one |
| KeyActions.SoftDelete | src/actions/keys.ts:117 | the key is no longer found, and only its owner's live-key count drops by one |
| KeyRepository.LiveKeyIndex | src/repository/key.ts:93 | the first live row with that id, or none when no live row has it |
| KeyRepository.PatchKey | src/repository/key.ts:83-88 | only the name, enabled flag and expiry given in the patch change, plus `updatedAt`; id, owner and key string never change |
| KeyRepository.KeyTable.constructor | src/repository/key.ts:3-8 | an empty table whose first id is 1 |
| KeyRepository.KeyTable.FindKeyById | src/repository/key.ts:10-28 | found iff a live row has that id, and then it is that row seen through `toKey` |
| KeyRepository.KeyTable.FindKeyList | src/repository/key.ts:30-48 | keys of that user only, all live, and exactly `UserKeys` of the rows |
| KeyRepository.UserKeys | src/repository/key.ts:30-48 | exactly the user's live keys: each entry is a live row of that user, each such row is listed, as many entries as such rows, in ascending createdAt (and id) order |
| KeyRepository.KeyTable.CreateKey | src/repository/key.ts:50-72 | appends exactly one row with a fresh id and the given fields, and returns it |
| KeyRepository.KeyTable.UpdateKey | src/repository/key.ts:74-108 | an empty patch changes nothing and returns the current key; otherwise only the live row with that id is patched; null iff no live row had that id |
| KeyRepository.KeyTable.DeleteKey | src/repository/key.ts:188-196 | sets deletedAt on the live row with that id; true iff such a row existed, so a repeated delete returns false |
| KeyRepository.KeyTable.FindActiveKeyByUserIdAndName | src/repository/key.ts:110-137 | none iff no row of that user with that name is active; otherwise such a row |
| KeyRepository.KeyTable.FindActiveKeyByKeyString | src/repository/key.ts:198-223 | an active row with that key string (live, enabled, unexpired), or none iff there is no such row |
| KeyRepository.KeyTable.CountActiveKeysByUser | src/repository/key.ts:176-186 | the number of the user's live keys, whatever their enabled flag or expiry (the length of `FindKeyList`); 0 exactly when the user has no live key |
| KeyRepository.FindKeyUsageToday | src/repository/key.ts:139-174 | one entry per live key of the user; its cost is the sum of that key's live records created today, a missing sum counting as 0 |
| KeyRepository.SumCostsNonNegative | src/repository/key.ts:148-171 | non-negative record costs sum to a non-negative total |
| KeyRepository.SumCostsOfUncosted | src/repository/key.ts:167-169 | records without a cost sum to 0 |
| KeyRepository.FirstOwnedActiveKey | src/repository/key.ts:252-266 | the first candidate that is an active key with that string and a live owner, or none iff there is none |
| KeyRepository.ValidateApiKeyAndGetUser | src/repository/key.ts:226-266 | a result is an active key with that string and its live owner; none iff no such key exists |
| MessageRepository.UpdateById | src/repository/message.ts:44-65 | an update by id keeps the row count, rewrites every row with that id and leaves every other row as it was |
| MessageRepository.WithDuration | src/repository/message.ts:44-52 | only the durationMs and updatedAt of rows with that id change, deleted or not |
| MessageRepository.WithCost | src/repository/message.ts:57-65 | only the costUsd and updatedAt of rows with that id change, deleted or not |
| MessageRepository.MessageTable.constructor | src/repository/message.ts:3-10 | an empty table whose first id is 1 |
| MessageRepository.MessageTable.CreateMessageRequest | src/repository/message.ts:15-39 | appends exactly one row holding provider, user, key, message, duration and cost, with a fresh id no earlier row has |
| MessageRepository.MessageTable.UpdateMessageRequestDuration | src/repository/message.ts:44-52 | the rows become `WithDuration` of the old rows; nothing else changes |
| MessageRepository.MessageTable.UpdateMessageRequestCost | src/repository/message.ts:57-65 | the rows become `WithCost` of the old rows; nothing else changes |
| MessageRepository.MessageTable.FindLatestMessageRequestByKey | src/repository/message.ts:70-94 | none iff no live row has that key; otherwise the live row with that key whose createdAt (and id) is greatest |
| MessageService.PlannedRecord | src/app/v1/_lib/proxy/message-service.ts:9-19 | a record is planned iff auth succeeded with a user and key and a provider is set; it holds provider.id, user.id, the key and the request message |
| MessageService.EnsureContext | src/app/v1/_lib/proxy/message-service.ts:5-26 | on the null path the context is cleared and nothing is written; otherwise exactly one record is appended and the context holds its id, the user and the key; auth state and provider are untouched |
| Middleware.Decide | src/middleware.ts:14-45 | a redirect to `/login` with `from` = the path happens iff the path is neither under `/v1` nor public and there is no `auth-token` cookie |
| Middleware.GatewayPathsPass | src/middleware.ts:23-25 | every path starting with `/v1` passes, with or without a cookie |
| Middleware.LoginPageIsReachable | src/middleware.ts:4-31 | the login page passes without a cookie |
| Middleware.CookieOpensEveryPath | src/middleware.ts:34-44 | any cookie lets every path through, unvalidated |
| ModelPriceRepository.EntryFor | src/repository/model-price.ts:57-65 | an entry found for a name is in the listing and carries that name |
| ModelPriceRepository.EntryOfSorted | src/repository/model-price.ts:65 | in a listing ordered by name, looking up a listed entry's name finds that very entry |
| ModelPriceRepository.Upsert | src/repository/model-price.ts:36-64 | the per-model listing holds the new row's price and otherwise only earlier entries |
| ModelPriceRepository.UpsertKeepsOrder | src/repository/model-price.ts:65 | replacing or inserting one model's entry keeps the listing ordered by name |
| ModelPriceRepository.UpsertEntry | src/repository/model-price.ts:36-64 | after an upsert, the upserted model maps to the new entry and every other model keeps its own |
| ModelPriceRepository.LatestPerModelSorted | src/repository/model-price.ts:65 | the latest-per-model listing is strictly ordered by model name, so no model appears twice |
| ModelPriceRepository.LatestPerModelEntries | src/repository/model-price.ts:34-70 | the listing's entry for a name is the latest row of that model if the name matches `claude-%` case-insensitively, and absent otherwise |
| ModelPriceRepository.PriceTable.constructor | src/repository/model-price.ts:3-7 | an empty table whose first id is 1 |
| ModelPriceRepository.PriceTable.FindLatestPriceByModel | src/repository/model-price.ts:12-28 | none iff no row has that exact name; otherwise a stored row of that model, with the greatest createdAt (and id) among them |
| ModelPriceRepository.PriceTable.FindAllLatestPrices | src/repository/model-price.ts:34-70 | ordered by model name; each `claude-` model maps to its latest price (max createdAt, ties to the highest id) and every other name to nothing |
| ModelPriceRepository.PriceTable.CreateModelPrice | src/repository/model-price.ts:75-94 | appends one row and alters no existing row; the new row becomes that model's latest price |
| ModelPriceRepository.ListingHoldsOnlyLatest | src/repository/model-price.ts:34-70 | every listed entry is a `claude-` model and is that model's latest price |
| ModelPriceActions.Run | src/actions/model-prices.ts:67-95 | the four lists together have one name per processed entry; the table keeps its old rows and gains one row per added or updated model |
| ModelPriceActions.Names | src/actions/model-prices.ts:68 | the model names of the entries, in input order |
| ModelPriceActions.EveryEntryReportedOnce | src/actions/model-prices.ts:68-95 | each processed entry lands in exactly one of added, updated, unchanged or failed: together the lists hold the entries' names with their multiplicities |
| ModelPriceActions.StepReportsOnce | src/actions/model-prices.ts:71-93 | one entry adds its name to exactly one list |
| ModelPriceActions.ReportedParts | src/actions/model-prices.ts:59-65 | the names reported are those of the four lists together |
| ModelPriceActions.LatestAfterAppend | src/actions/model-prices.ts:81-85 | a row created for one model changes the latest price of that model only |
| ModelPriceActions.UploadReflectsTable | src/actions/model-prices.ts:68-95 | after an upload of distinct models, each model with an object price has that price as its latest, by JSON serialisation |
| ModelPriceActions.UploadOfReflectedTable | src/actions/model-prices.ts:77-90 | uploading a table the prices already reflect creates no row and reports nothing as added or updated |
| ModelPriceActions.UploadIsIdempotent | src/actions/model-prices.ts:68-95 | uploading the same table twice: the second upload writes nothing and reports every entry as unchanged or failed |
| ModelPriceActions.RunOneMore | src/actions/model-prices.ts:68 | the loop after one more entry is one more `Step` |
| ModelPriceActions.UploadPriceTable | src/actions/model-prices.ts:32-107 | a non-admin is refused and nothing is parsed or written; invalid JSON and a non-object are refused with nothing written; otherwise only `claude-` entries are processed, `total` is their count, and the table and lists are those of `Run` |
| ModelPriceActions.UploadEntries | src/actions/model-prices.ts:67-95 | the `for` loop leaves the table and the four lists exactly as `Run` describes |
| ModelPriceActions.ProcessEntry | src/actions/model-prices.ts:69-94 | one iteration is exactly one `Step`: a non-object fails with no store call, no price adds, a changed price updates (each creating one row), an equal one is unchanged |
| ModelPriceActions.GetModelPrices | src/actions/model-prices.ts:112-125 | `[]` unless admin; for an admin, the latest price of every `claude-` model, ordered by name |
| ModelPriceActions.HasPriceTableIffClaudeRow | src/actions/model-prices.ts:130-137 | true iff the caller is an admin and the table holds a row of some `claude-` model |
| ProviderRepository.PatchProvider | src/repository/provider.ts:97-108 | only the fields present in the patch change, plus `updatedAt`; id, createdAt and deletedAt never change |
| ProviderRepository.LiveIndex | src/repository/provider.ts:113 | the first live row with that id, or none when no live row has it |
| ProviderRepository.NewestLiveFirstIsOrdered | src/repository/provider.ts:58-62 | live rows only, in descending createdAt order; with offset 0 and no more live rows than the limit, every live row is listed |
| ProviderRepository.NewestAreLive | src/repository/provider.ts:59 | only live rows are listed |
| ProviderRepository.ProviderTable.constructor | src/repository/provider.ts:3-7 | an empty table whose first id is 1 |
| ProviderRepository.ProviderTable.CreateProvider | src/repository/provider.ts:9-39 | appends exactly one row holding the supplied fields with a fresh id, and returns it |
| ProviderRepository.ProviderTable.FindProviderList | src/repository/provider.ts:41-65 | the page `ProviderPage` of the rows: at most `limit` rows, live only, in descending createdAt order |
| ProviderRepository.ProviderPage | src/repository/provider.ts:41-65 | `LIMIT`/`OFFSET` over the live rows newest first: the page holds as many as SQL leaves, each a stored live row, newest first; with offset 0 no live row left off is newer than one on the page, and with few enough live rows all of them are on it |
| ProviderRepository.ProviderTable.FindProviderById | src/repository/provider.ts:67-89 | found iff a live row has that id, and then it is that row seen through `toProvider` |
| ProviderRepository.ProviderTable.UpdateProvider | src/repository/provider.ts:91-132 | an empty patch changes nothing and returns the current provider; otherwise only the live row with that id is patched; null iff no live row had that id |
| ProviderRepository.ProviderTable.DeleteProvider | src/repository/provider.ts:134-142 | soft delete: sets deletedAt on the live row with that id, true iff such a row existed |
| ProviderActions.GetProviders | src/actions/providers.ts:12-39 | `[]` unless admin; for an admin, one entry per listed provider (at most 50, newest first) carrying its id, name, url, flag, weight and limits, the masked key instead of the key, and its dates cut to `YYYY-MM-DD` |
| ProviderActions.ListingHidesKeys | src/actions/providers.ts:25 | a listed key shows as the bullets alone when it is at most 8 characters long, otherwise as its first 4 and last 4 characters around them |
| ProviderActions.OrNull | src/actions/providers.ts:62-65 | a limit the form left out becomes null, a given one is kept |
| ProviderActions.AddProvider | src/actions/providers.ts:42-75 | a non-admin is refused with no store call; an invalid form fails; otherwise exactly one row is stored, with the schema's defaults and null for every missing limit |
| ProviderActions.AddedLimitsAreGivenOrNull | src/actions/providers.ts:59-66 | every limit that was given is stored and every other one is null; enabled and weight are always set |
| ProviderActions.EditProvider | src/actions/providers.ts:78-107 | a non-admin is refused; an invalid or empty form fails; otherwise only the live provider with that id takes the given fields; success even if there is none |
| ProviderActions.RemoveProvider | src/actions/providers.ts:110-125 | a non-admin is refused with nothing changed; otherwise the provider is soft-deleted and no longer found |
| ProviderSelector.FirstAbove | src/app/v1/_lib/proxy/provider-selector.ts:72-77 | the loop stops at the first provider whose running weight exceeds the draw, and no earlier one does |
| ProviderSelector.ScaledIndex | src/app/v1/_lib/proxy/provider-selector.ts:65 | `floor(random * n)` is an index below `n` |
| ProviderSelector.Draw | src/app/v1/_lib/proxy/provider-selector.ts:69 | with a positive total the draw lies in `[0, total)` |
| ProviderSelector.WeightedChoice | src/app/v1/_lib/proxy/provider-selector.ts:50-80 | nothing exactly when no listed provider is enabled; otherwise an enabled listed provider, and the only one when there is just one |
| ProviderSelector.Landing | src/app/v1/_lib/proxy/provider-selector.ts:70-79 | the walk over the running weights always lands on an enabled provider, the last one as fallback |
| ProviderSelector.WeightedChoiceFollowsWeights | src/app/v1/_lib/proxy/provider-selector.ts:62-77 | with a positive total the chosen provider is the one whose weight interval holds the draw, so its weight is positive and it is chosen with probability weight/total |
| ProviderSelector.ZeroWeightsPickByIndex | src/app/v1/_lib/proxy/provider-selector.ts:64-67 | with all weights zero the pick is the enabled provider at `floor(random * n)` |
| ProviderSelector.PickRandomProvider | src/app/v1/_lib/proxy/provider-selector.ts:50-80 | the method's result is the weighted choice over the first page of live providers |
| ProviderSelector.WalkCumulative | src/app/v1/_lib/proxy/provider-selector.ts:69-79 | the accumulating loop returns `Landing`: the first provider whose cumulative weight exceeds the random draw |
| ProviderSelector.FindReusable | src/app/v1/_lib/proxy/provider-selector.ts:27-48 | a provider is reused exactly when the conversation has more than one message, the key is non-empty, its latest request names a provider, and that provider is live and enabled |
| ProviderSelector.Resolve | src/app/v1/_lib/proxy/provider-selector.ts:9-14 | reuse comes first and the weighted draw only when reuse finds nothing; nothing exactly when both come up empty; any result is live and enabled |
| ProviderSelector.Ensure | src/app/v1/_lib/proxy/provider-selector.ts:9-25 | the session holds the resolved provider; the result is null exactly when a provider was set, otherwise a 503 with the no-provider message; nothing else in the session changes |
| ProxyHandler.HandleProxyRequest | src/app/v1/_lib/proxy-handler.ts:10-32 | the response and the billing rows the pipeline leaves are exactly `Expected`: 401 or 503 with nothing written, otherwise the forwarded exchange |
| ProxyHandler.Gate | src/app/v1/_lib/proxy-handler.ts:14-17 | authentication runs first and a failure answers at once |
| ProxyHandler.Choose | src/app/v1/_lib/proxy-handler.ts:19-22 | the provider is resolved next and a missing one answers at once |
| ProxyHandler.Forward | src/app/v1/_lib/proxy-handler.ts:24-27 | the billing context is opened before the request is forwarded |
| ProxyHandler.Exchange | src/app/v1/_lib/proxy-handler.ts:26-30 | a thrown upstream call is answered by the error handler, otherwise the response handler passes the upstream response on |
| ProxyHandler.OpeningAppendsOneRow | src/app/v1/_lib/proxy/message-service.ts:6-25 | opening the context appends exactly one row, with the provider, user and key, exactly when the request is eligible for billing |
| ProxyHandler.ExchangeTouchesOwnRow | src/app/v1/_lib/proxy-handler.ts:24-30 | after the context is opened, the exchange writes only the request's own row and never its provider, user or key |
| ProxyHandler.OnlyServedRequestsAreBilled | src/app/v1/_lib/proxy-handler.ts:13-27 | a rejected request writes nothing; a served one adds at most one row, for its own user, key and provider, and leaves every earlier row as it was |
| ResponseHandler.UsageOf | src/app/v1/_lib/proxy/response-handler.ts:136-166 | a usage is found only in a truthy object and only when it has a numeric count; each count is the field's number |
| ResponseHandler.ExtractUsageMetrics | src/app/v1/_lib/proxy/response-handler.ts:136-166 | the field-by-field method returns exactly `UsageOf` of the parsed body |
| ResponseHandler.UsageRoundTrip | src/app/v1/_lib/proxy/response-handler.ts:136-166 | rendering a usage as JSON and extracting it again gives the usage back, or nothing for a usage with no counts |
| ResponseHandler.UsageJsonFields | src/app/v1/_lib/proxy/response-handler.ts:8-13 | each count of a rendered usage is read back from its own field |
| ResponseHandler.UsageNamesAreDistinct | src/app/v1/_lib/proxy/response-handler.ts:8-13 | the four usage field names differ |
| ResponseHandler.UsageCountsAreDistinct | src/app/v1/_lib/proxy/response-handler.ts:8-13 | the rendered usage never names a field twice |
| ResponseHandler.CountIsFound | src/app/v1/_lib/proxy/response-handler.ts:145-163 | every count of a rendered usage is found under its name |
| ResponseHandler.LookupSkips | src/app/v1/_lib/proxy/response-handler.ts:141 | a lookup passes over members with other names |
| ResponseHandler.MembersAvoid | src/app/v1/_lib/proxy/response-handler.ts:141 | rendering keeps the names of the counts |
| ResponseHandler.LookupMembers | src/app/v1/_lib/proxy/response-handler.ts:141-163 | with distinct names, every count is found under its own name |
| ResponseHandler.DeltaUsages | src/app/v1/_lib/proxy/response-handler.ts:111-118 | one candidate usage per event, in order |
| ResponseHandler.LastPresentIsLast | src/app/v1/_lib/proxy/response-handler.ts:111-118 | the kept usage is absent only when every candidate is, and otherwise sits at some position with nothing after it |
| ResponseHandler.StreamUsageIsLastDelta | src/app/v1/_lib/proxy/response-handler.ts:111-118 | the usage billed for a stream is that of the last `message_delta` event carrying one |
| ResponseHandler.UsageStep | src/app/v1/_lib/proxy/response-handler.ts:114-116 | one more event replaces the kept usage exactly when it carries one |
| ResponseHandler.SelectUsage | src/app/v1/_lib/proxy/response-handler.ts:111-118 | the loop keeps the last usage of a `message_delta` event |
| ResponseHandler.CostToRecord | src/app/v1/_lib/proxy/response-handler.ts:168-184 | a cost is recorded exactly when there is a model, a usage, a price with price data and a positive computed cost, and it is that cost |
| ResponseHandler.UpdateRequestCostFromUsage | src/app/v1/_lib/proxy/response-handler.ts:168-184 | the request's row takes the cost exactly when one is to be recorded; nothing else changes |
| ResponseHandler.ClientResponse | src/app/v1/_lib/proxy/response-handler.ts:73-133 | the client gets the upstream status, status text and headers, and a body exactly when upstream had one; only a teed event stream is rebuilt |
| ResponseHandler.Dispatch | src/app/v1/_lib/proxy/response-handler.ts:16-25 | the client response and the rows written follow the event-stream test on the content type |
| ResponseHandler.HandleNonStream | src/app/v1/_lib/proxy/response-handler.ts:27-71 | a plain response is returned unchanged; with a provider and a context its row takes the cost of the body's usage, then the duration |
| ResponseHandler.HandleStream | src/app/v1/_lib/proxy/response-handler.ts:73-133 | without a context, a provider or a body the response is passed through; otherwise the duration is written and then the cost of the last delta usage |
| ResponseHandler.NoContextNoWrites | src/app/v1/_lib/proxy/response-handler.ts:55-62 | a request without a billing context writes nothing |
| ResponseHandler.WritesStayOnOwnRow | src/app/v1/_lib/proxy/response-handler.ts:54-62 | only the request's own row changes, only its duration, cost and update time, a changed cost is positive, and a recorded response always sets the duration |
| Responses.BuildError | src/app/v1/_lib/proxy/responses.ts:2-16 | the response has the given status, the JSON content type and an `error` object in its body |
| Responses.ErrorEnvelopeRoundTrip | src/app/v1/_lib/proxy/responses.ts:3-8 | the body's `error.message` is the message and `error.type` is the status written in decimal digits |
| Responses.ErrorTypeIdentifiesStatus | src/app/v1/_lib/proxy/responses.ts:3-8 | two error bodies agree only when status and message both agree |
| Session.Zeros | src/app/v1/_lib/proxy/session.ts:120 | `new Array(n).fill(0)`: `n` zeros |
| Session.Placeholder | src/app/v1/_lib/proxy/session.ts:119-127 | a member keeps its name |
| Session.OptimizeRequestMessage | src/app/v1/_lib/proxy/session.ts:116-130 | the optimized message has the same members in the same order, each replaced by its placeholder |
| Session.LookupOptimized | src/app/v1/_lib/proxy/session.ts:116-130 | a member is found in the optimized message exactly when it was in the original, as its placeholder |
| Session.OptimizeKeepsShape | src/app/v1/_lib/proxy/session.ts:119-127 | an array under `system`, `messages` or `tools` becomes as many zeros; every other member is kept |
| Session.ReuseDecisionSurvivesOptimization | src/app/v1/_lib/proxy/session.ts:101-104 | the reuse test gives the same answer on the optimized message as on the original |
| Session.OptimizeIsIdempotent | src/app/v1/_lib/proxy/session.ts:116-130 | optimizing twice is optimizing once |
| Session.ParseRequestBody | src/app/v1/_lib/proxy/session.ts:132-163 | GET and HEAD carry no body and log `(empty)`; a JSON body is optimized and logged re-serialised; any other body is kept raw with the note |
| Session.RawBodyIsNotMultiMessage | src/app/v1/_lib/proxy/session.ts:152 | a body that is not JSON never triggers provider reuse |
| Session.ModelOf | src/app/v1/_lib/proxy/session.ts:77 | the model is the `model` member exactly when that is a string |
| Session.FormatHeadersForLog | src/app/v1/_lib/proxy/session.ts:107-114 | the loop builds exactly `HeaderLog` of the entries |
| Session.HeaderLogLines | src/app/v1/_lib/proxy/session.ts:107-114 | the header log splits back at line breaks into one `name: value` line per header |
| Session.LineHasNoBreak | src/app/v1/_lib/proxy/session.ts:110 | a header line holds no line break when its name and value hold none |
| Session.HeaderLogIsEmptyOnlyWithoutHeaders | src/app/v1/_lib/proxy/session.ts:113 | the log reads `(empty)` exactly when there are no headers |
| Session.HeaderLogIsEmptyIffNoHeaders | src/app/v1/_lib/proxy/session.ts:107-114 | the same, stated for the request's header map |
| Session.Payload | src/app/v1/_lib/proxy/session.ts:72-78 | the session's request holds the parsed message, the body buffer and the model read from the message |
| Session.ProxySession.constructor | src/app/v1/_lib/proxy/session.ts:44-62 | a new session holds what it is given, `unknown` as user name and no auth state, provider or context |
| Session.ProxySession.FromContext | src/app/v1/_lib/proxy/session.ts:64-81 | the method is upper-cased, the header log and request payload are built from the request |
| Session.ProxySession.SetAuthState | src/app/v1/_lib/proxy/session.ts:83-88 | the state is stored and the user name taken from its user when there is one; nothing else changes |
| Session.ProxySession.SetProvider | src/app/v1/_lib/proxy/session.ts:90-92 | only the provider changes |
| Session.ProxySession.SetMessageContext | src/app/v1/_lib/proxy/session.ts:94-99 | the context is stored and the user name taken from it when there is one; nothing else changes |
| Schemas.MentionsAppend | src/lib/validation/schemas.ts:8-33 | the issues of two checks mention a field exactly when one of them does |
| Schemas.MentionsOwnField | src/lib/validation/schemas.ts:8-33 | a field's own checks mention only that field, and mention it exactly when they fail |
| Schemas.LengthIssues | src/lib/validation/schemas.ts:11-12 | the length check fails exactly when the UTF-16 length is outside its bounds |
| Schemas.RegexIssues | src/lib/validation/schemas.ts:13-16 | the pattern check fails exactly when some character is outside the allowed class |
| Schemas.NumberIssues | src/lib/validation/schemas.ts:18-32 | the number check fails exactly when the value is not an integer where one is required, or is outside its bounds |
| Schemas.OptionalIssues | src/lib/validation/schemas.ts:24 | an absent optional field raises nothing; a present one is checked |
| Schemas.NullableIssues | src/lib/validation/schemas.ts:110-111 | an absent or null field raises nothing; a present one is checked |
| Schemas.IntValue | src/lib/validation/schemas.ts:21 | an integral number has that integer value |
| Schemas.NameIssues | src/lib/validation/schemas.ts:9-16 | a user name passes exactly when it is 1 to 64 characters of letters, digits, `_`, `-` and CJK ideographs |
| Schemas.NoteIssues | src/lib/validation/schemas.ts:17 | a note passes exactly when it is at most 200 characters |
| Schemas.RpmIssues | src/lib/validation/schemas.ts:18-25 | a user RPM passes exactly when it is an integer within the user limits |
| Schemas.QuotaIssues | src/lib/validation/schemas.ts:26-32 | a daily quota passes exactly when it lies within the user limits |
| Schemas.RequiredIssues | src/lib/validation/schemas.ts:9 | a missing required field is reported as `Required` |
| Schemas.ParseCreateUser | src/lib/validation/schemas.ts:8-33 | a user form is accepted exactly when it has a valid name and valid optional fields; the defaults fill in what is missing |
| Schemas.CreateUserIssuesNameFailingFields | src/lib/validation/schemas.ts:8-33 | the rejection mentions a field exactly when that field fails its own check |
| Schemas.ParseUpdateUser | src/lib/validation/schemas.ts:38-62 | an update is accepted exactly when every given field is valid; nothing is defaulted |
| Schemas.CreateAcceptedIsUpdateAccepted | src/lib/validation/schemas.ts:8-62 | any form accepted for creation is also accepted as an update, with the same name |
| Schemas.KeyNameIssues | src/lib/validation/schemas.ts:68-72 | a key name passes exactly when it is 1 to 64 letters, digits, `_` or `-` |
| Schemas.ParseKeyForm | src/lib/validation/schemas.ts:67-78 | a key form is accepted exactly when its name is valid; an empty or missing expiry becomes none |
| Schemas.KeyNamesAreUserNames | src/lib/validation/schemas.ts:68-72 | every valid key name is also a valid user name |
| Schemas.UrlIssues | src/lib/validation/schemas.ts:88-91 | a URL passes exactly when it parses as a URL and is at most 255 characters |
| Schemas.WeightIssues | src/lib/validation/schemas.ts:98-104 | a weight passes exactly when it is an integer within the provider limits |
| Schemas.LimitValue | src/lib/validation/schemas.ts:105-132 | a valid limit is kept absent, null or as its integer within bounds |
| Schemas.LimitsIssues | src/lib/validation/schemas.ts:105-132 | the limit checks pass exactly when every given limit is an integer within its bounds |
| Schemas.ParseCreateProvider | src/lib/validation/schemas.ts:83-133 | a provider form is accepted exactly when it is valid; enabled and weight take their defaults and each limit is kept as given |
| Schemas.ToField | src/lib/validation/schemas.ts:140-143 | a given field is set, a missing one left alone |
| Schemas.LimitField | src/lib/validation/schemas.ts:150-177 | a missing limit is left alone, null clears it, a value sets it |
| Schemas.ParseUpdateProvider | src/lib/validation/schemas.ts:138-179 | a provider update is accepted exactly when it is valid and not empty; each given field is set, the weight to the integer the form gave; an empty update fails with a custom issue |
| Schemas.CreateProviderAcceptedIsUpdateAccepted | src/lib/validation/schemas.ts:83-179 | any form accepted for creation is also accepted as an update |
| StatisticsActions.FindRange | src/actions/statistics.ts:37 | the first option with the key, and none exactly when no option has it |
| StatisticsActions.KnownRanges | src/types/statistics.ts:10-29 | exactly `today`, `7days` and `30days` are known; `today` is charted by hour, the others by day |
| StatisticsActions.IntToDecimalInjective | src/actions/statistics.ts:19 | different user ids render as different decimal strings |
| StatisticsActions.SignOfDecimal | src/actions/statistics.ts:19 | a rendered id is never empty and starts with `-` exactly when it is negative |
| Strings.NatToDecimal | src/actions/statistics.ts:19 | a non-negative id renders as one or more characters, every one a decimal digit |
| StatisticsActions.SuffixCancels | src/actions/statistics.ts:76-77 | equal strings with the same suffix have equal prefixes |
| StatisticsActions.FieldNamesAreDistinct | src/actions/statistics.ts:19-77 | a cost field never collides with a calls field, and each user's fields are their own |
| StatisticsActions.SetField | src/actions/statistics.ts:76-77 | setting a field makes it read the new value and leaves every other field as it was |
| StatisticsActions.RowFieldsOf | src/actions/statistics.ts:72-77 | a row sets its own user's cost (0 when missing) and calls (0 when missing) and no other user's fields |
| StatisticsActions.IndexOfDate | src/actions/statistics.ts:62-68 | the position of the item for a date, and none exactly when no item has that date |
| StatisticsActions.Buckets | src/actions/statistics.ts:52-60 | one chart date per row: the ISO timestamp by hour, its date part by day |
| StatisticsActions.FirstOccurrencesSound | src/actions/statistics.ts:48-81 | the first occurrences hold the same dates, each once |
| StatisticsActions.Dates | src/actions/statistics.ts:81 | the chart's dates in order |
| StatisticsActions.DatesAfterRow | src/actions/statistics.ts:62-66 | a row opens a new item, at the end, exactly when its date has none yet |
| StatisticsActions.OneItemPerBucket | src/actions/statistics.ts:48-81 | the chart has one item per distinct date, in order of first appearance |
| StatisticsActions.DatesAreDistinct | src/actions/statistics.ts:48-81 | no two chart items share a date |
| StatisticsActions.LastRowHasBucket | src/actions/statistics.ts:50-78 | a user has a cost or a call count on a date only if that date is one of the chart's buckets |
| StatisticsActions.LastRowWins | src/actions/statistics.ts:50-78 | each item's cost and calls fields for a user hold those of the user's last row on that date |
| StatisticsActions.PivotRows | src/actions/statistics.ts:48-78 | the loop over the rows builds exactly `Pivot` of the rows |
| StatisticsActions.ApplyRow | src/actions/statistics.ts:62-77 | one row opens or updates its date's item as the pivot step says |
| StatisticsActions.SeriesOf | src/actions/statistics.ts:82-86 | a series carries the user id, the key `user-<id>`, and the name or `User<id>` when the name is empty |
| StatisticsActions.GetUserStatistics | src/actions/statistics.ts:24-112 | an omitted range is `today`, bucketed by hour; no session is refused; an unknown range or a failed fetch reports its message, the overflow one replaced; otherwise the chart, one series per user in order, the range and its resolution |
| StatisticsActions.SeriesReadTheirFields | src/actions/statistics.ts:76-86 | a series' data key names exactly the fields its user's rows set in every chart item |
| Transformers.DefaultRpm | src/repository/_shared/transformers.ts:13 | a missing or zero RPM becomes 60, any other is kept |
| Transformers.OrString | src/repository/_shared/transformers.ts:11-12 | an empty or missing string takes the fallback |
| Transformers.ToUser | src/repository/_shared/transformers.ts:8-18 | a user keeps its columns; description defaults to empty, role to `user`, RPM to 60 and the quota to 0 |
| Transformers.ToKey | src/repository/_shared/transformers.ts:21-28 | a key keeps its columns and is enabled unless the column says false |
| Transformers.ToProvider | src/repository/_shared/transformers.ts:31-43 | a provider keeps its columns, is enabled unless the column says false, and has weight 1 when none is stored |
| Transformers.ToMessageRequest | src/repository/_shared/transformers.ts:46-53 | a request keeps its columns and has a cost exactly when one is stored |
| Transformers.ToModelPrice | src/repository/_shared/transformers.ts:56-62 | a price keeps its columns |
| Transformers.ToUserIsStable | src/repository/_shared/transformers.ts:8-18 | converting a converted user again changes nothing |
| Transformers.ToProviderIsStable | src/repository/_shared/transformers.ts:31-43 | converting a converted provider again changes nothing |
| Url.TrimTrailingSlash | src/app/v1/_lib/url.ts:14-26 | at most one trailing slash is removed, and one is exactly when the string ends with a slash |
| Url.SearchAfterSet | src/app/v1/_lib/url.ts:20 | a search that is set is empty or starts with `?` |
| Url.SearchRoundTrip | src/app/v1/_lib/url.ts:20 | setting a URL's own search string keeps it |
| Url.UrlObject.constructor | src/app/v1/_lib/url.ts:10 | the parsed URL holds the parts of the base |
| Url.UrlObject.SetPathname | src/app/v1/_lib/url.ts:18 | only the path changes |
| Url.UrlObject.SetSearch | src/app/v1/_lib/url.ts:20 | only the search changes |
| Url.BuildProxyUrl | src/app/v1/_lib/url.ts:7-29 | the method's steps on the parsed URL object yield exactly `ProxyUrl`: the base's path and the request's path and query when the base parses, plain concatenation when it does not |
| Url.ParsedBaseKeepsRequestPathAndQuery | src/app/v1/_lib/url.ts:10-22 | with a parsable base the target is the base's origin and path without a trailing slash, then the request's path and query, then the base's fragment |
| Url.BaseQueryIsDiscarded | src/app/v1/_lib/url.ts:20 | the base URL's own query never reaches the target |
| Url.TrailingSlashIsIgnored | src/app/v1/_lib/url.ts:14 | a trailing slash on the base's path makes no difference |
| Url.UnparsedBaseIsConcatenated | src/app/v1/_lib/url.ts:23-28 | an unparsable base is joined with the request's path and query, with a trailing slash dropped |
| UserActions.UsageOf | src/actions/users.ts:51-81 | a key with no usage record shows zero |
| UserActions.UsageOfDistinct | src/actions/users.ts:51-81 | with no two records for the same key, in any order, a key shows its own record's total |
| UserActions.UsageIgnoresOrder | src/actions/users.ts:51-81 | any order of the same records, one per key, shows every key the same usage |
| UserActions.VisibleUsers | src/actions/users.ts:28-34 | a plain user sees only themself; an admin sees exactly the live users: each listed user is a live row, each live row is listed, one entry per live row |
| UserActions.GetUsers | src/actions/users.ts:21-61 | no session sees nothing; otherwise one entry per visible user, in order, showing that user's id, name, role, RPM and daily quota, and the description as the note unless it is empty |
| UserActions.KeysShowStatusAndExpiry | src/actions/users.ts:62-72 | each shown key keeps its name and creation time, is `enabled` exactly when the key is enabled, and shows `永不过期` without an expiry and otherwise the date part of the expiry's ISO rendering |
| UserActions.ExpiryShowsItsDate | src/actions/users.ts:68-70 | a key whose expiry renders as `<date>T<time>` shows exactly `<date>` |
| UserActions.ListsVisibleUsers | src/actions/users.ts:43-57 | the entries follow the visible users in order; a plain user's one entry is their own |
| UserActions.OnlyAdminsSeeFullKeys | src/actions/users.ts:40-67 | every listed key is shown masked; the full key and the copy button are there exactly for an admin |
| UserActions.ShownUsageIsTodaysSpend | src/actions/users.ts:46-81 | each key shows the cost of its requests made today |
| UserActions.NumberOr | src/actions/users.ts:123-124 | a falsy RPM or quota is replaced by the default before validation |
| UserActions.FalsyLimitsBecomeDefaults | src/actions/users.ts:120-125 | a missing or zero RPM or quota is stored as the user default; a given one as given |
| UserActions.FirstKeyOfNewUser | src/actions/users.ts:134-142 | the new user's default key is its only live key |
| UserActions.AddUser | src/actions/users.ts:107-152 | a non-admin is refused and an invalid form fails, both with nothing stored; otherwise one user and its enabled `default` key `sk-<hex>` are stored, every key keeps an existing owner, and the new user has exactly one live key |
| UserActions.StoreNewUser | src/actions/users.ts:127-142 | the user row is stored, then the key row naming it |
| UserActions.OptField | src/actions/users.ts:167-172 | a field the form left out is not touched |
| UserActions.EditChangesGivenFields | src/actions/users.ts:165-172 | an accepted update changes exactly the fields given, and always the update time |
| UserActions.EditUser | src/actions/users.ts:155-182 | a non-admin is refused and an invalid form fails with nothing changed; otherwise only the live user with that id takes the given fields |
| UserActions.RemoveUser | src/actions/users.ts:185-203 | a non-admin is refused with nothing changed; otherwise the user is soft-deleted and no longer found |
| UserRepository.PatchUser | src/actions/users.ts:167-172 | the given fields change, with the update time; identity, role, creation and deletion are kept |
| UserRepository.UserTable.FindUserById | src/lib/auth.ts:49-52 | a user is found exactly when a live row has the id, and is that row as transformed |
| UserRepository.UserTable.FindUserList | src/actions/users.ts:33 | exactly the live users: every listed user is a live row as transformed, every live row is listed, one entry per live row |
| UserRepository.UserTable.CreateUser | src/actions/users.ts:127-132 | one row is appended with the next id, the description, RPM and quota given, and no role |
| UserRepository.UserTable.UpdateUser | src/actions/users.ts:167-172 | an empty patch changes nothing; otherwise only the live user with the id is patched; the result is found exactly when that user was |
| UserRepository.UserTable.DeleteUser | src/actions/users.ts:194 | the live user with the id is soft-deleted and no longer found; the result says whether there was one |
| KeyMask.MaskKey | src/lib/utils/validation/index.ts:24-31 | a key of at most eight characters shows only the mask; a longer one its first four, the mask, and its last four |
| KeyMask.MaskRevealsAtMostEight | src/lib/utils/validation/index.ts:24-31 | no more than eight characters of the key are shown, each at its own place |
| KeyMask.MaskDependsOnlyOnEnds | src/lib/utils/validation/index.ts:28-30 | keys that agree on their first and last four characters look the same |
| ProviderValidation.Round | src/lib/utils/validation/provider.ts:19 | `Math.round`: the nearest integer, halves rounded up |
| ProviderValidation.RoundOfInteger | src/lib/utils/validation/provider.ts:19 | rounding keeps an integer |
| ProviderValidation.ClampWeight | src/lib/utils/validation/provider.ts:15-21 | the weight lies within its limits, NaN becomes the minimum and a valid weight is kept |
| ProviderValidation.ClampIntInRange | src/lib/utils/validation/provider.ts:26-29 | NaN becomes the minimum; the result lies in the range and keeps an integer already in it |
| ProviderValidation.ClampTpm | src/lib/utils/validation/provider.ts:34-38 | the TPM lies within its limits and is a multiple of the step |
| ProviderValidation.ClampsAreIdempotent | src/lib/utils/validation/provider.ts:15-38 | clamping a clamped value changes nothing |
| ProviderValidation.LeadingDigits | src/lib/utils/validation/provider.ts:8 | the longest prefix of digits |
| ProviderValidation.LeadingDigitsOfDigits | src/lib/utils/validation/provider.ts:8 | a string of digits is its own digit prefix |
| ProviderValidation.DigitIsNotWhitespace | src/lib/utils/validation/provider.ts:7-8 | a digit is never trimmed |
| ProviderValidation.ParseIntOfDecimal | src/lib/utils/validation/provider.ts:8 | `parseInt` reads a decimal rendering back |
| ProviderValidation.ValidateNumericField | src/lib/utils/validation/provider.ts:6-10 | a blank field is null; a value is returned only when `parseInt` reads a positive integer, and then it is that integer |
| ProviderValidation.ValidateNumericFieldOfDecimal | src/lib/utils/validation/provider.ts:6-10 | a positive integer written in decimal is accepted as itself |
| ProviderValidation.WithSuffix | src/lib/utils/validation/provider.ts:48-50 | a formatted value ends with its unit and is never the infinity sign |
| ProviderValidation.FormatTpmDisplay | src/lib/utils/validation/provider.ts:43-51 | infinity is shown exactly when flagged; otherwise the value ends in `M` from a million up and in `K` below |

The forwarder sends the placeholder key `000` when the authentication state records a failure
(src/app/v1/_lib/proxy/forwarder.ts). That branch cannot be reached from the pipeline, because a
failed authentication answers 401 first, but `Forwarder.OutboundKey` keeps it as written.

## Left out

- Logging: `ProxyLogger`, `console` output and the request and response log texts are output only and are not modelled.
- `revalidatePath` and other Next.js cache calls are side effects outside the data and are not modelled.
- Background work runs to completion in order: the non-stream logging task and the teed stream reader are modelled as if the whole upstream body were read before the rows are written; concurrency between requests is not modelled.
- `TextDecoder`, `JSON.parse`, `JSON.stringify`, URL parsing, `new URL(s).host`, `Date.toISOString` and `toFixed(1)` are parameters of the operations that use them.
- `Date.now()` and `new Date()` are `now`, `start` and `finish` parameters: one instant per operation, and a missing timestamp column is not defaulted to the current time.
- Inserts are assumed to carry non-decreasing `createdAt`: every table's `Valid()` keeps its rows in creation order, and every insert requires `now` no earlier than the last row's `createdAt`. Concurrent requests, clock adjustments or an explicit older timestamp can break this in the running system. Creation order then equals insertion order, and the contracts of `ModelPriceRepository.PriceTable.FindLatestPriceByModel`, `ModelPriceRepository.PriceTable.FindAllLatestPrices`, `MessageRepository.MessageTable.FindLatestMessageRequestByKey`, `ProviderRepository.ProviderPage` and `KeyRepository.UserKeys` depend on it.
- `randomBytes(16)` is the 32 hex digits it yields, passed in; `Math.random()` is a real in `[0, 1)`.
- Numbers are exact reals: floating-point rounding, NaN and infinities in costs are not modelled, so `findKeyUsageToday` never sees a non-finite total.
- UTF-16: the zod length checks in `Schemas` count UTF-16 code units through `Strings.Utf16Length`; every other length is counted in `char`s, and `toLowerCase`/`toUpperCase` are ASCII only.
- Header names are compared in lower case as `Headers` does; the iteration order of a `Headers` object is taken as given.
- `toLocaleString('zh-CN')` (the key's `createdAtFormatted`) is not modelled; `UserActions.KeyView` leaves it out.
- Database failures are not modelled: the repositories always succeed, so the actions' generic `catch` messages and the users page's per-user fallback to an empty key list never occur.
- Errors thrown in the pipeline other than a failed upstream call are not modelled; `ProxyHandler.HandleProxyRequest` answers every throw of `fetch` through the error handler.
- A zod issue list is rendered by the `describe` parameter; zod's own message text is not modelled.
- `UserRepository`: src/repository/user.ts is not part of this model; the user table follows the conventions of the other tables (soft delete, reads skip deleted rows), and its members cite the call sites in src/actions/users.ts and src/lib/auth.ts.
- An insert that leaves a column undefined stores NULL; database column defaults (src/drizzle/schema.ts is not part of this model) are not modelled.
- The raw SQL of src/repository/statistics.ts is not modelled: `StatisticsActions.GetUserStatistics` takes its rows and users, or the database error, as a parameter.
- `StatisticsActions.GetUserStatistics`: a thrown value that is not an `Error` (reported as `未知错误`) is not modelled.
- `StatisticsActions.GetUserStatistics`: `toISOString` throwing a `RangeError` on an invalid date is not modelled; `isoOf` renders every date.
- `ProviderRepository.ProviderPage`: providers with the same `createdAt` are left unordered by `ORDER BY created_at DESC`; the model lists them newest-inserted first.
- Rate limits (RPM, TPM, RPD, concurrency) and daily quotas are stored but not enforced by the code, and not by the model either.
- `ProviderSelector.Landing`: its own contract only says the pick is enabled; the interval it lands in is stated by `ProviderSelector.WeightedChoiceFollowsWeights`.
- `ProviderSelector.PickRandomProvider` and `ProviderActions.GetProviders` see only the first 50 live providers, as `findProviderList()` returns by default.
- `Cost.CalculateRequestCost`: a price field counts only when it is a JSON number; JavaScript's coercion of a string, boolean or array price in `tokens * price` is not modelled, so such prices count as absent.
- `ModelPriceRepository.PriceTable.FindAllLatestPrices`: `ORDER BY model_name` sorts under the database collation; the model sorts by code point instead, and `ModelPriceActions.GetModelPrices` inherits that order.
- `ModelPriceRepository.PriceTable.FindLatestPriceByModel`: rows sharing the greatest `createdAt` are left unordered by the query; the model returns the one with the highest id.
- `MessageRepository.MessageTable.FindLatestMessageRequestByKey`: rows sharing the greatest `createdAt` are left unordered by the query; the model returns the one with the highest id.
- `KeyRepository.FindKeyUsageToday`: the query has no `ORDER BY`, so its rows come in no fixed order; the model returns them in the order of the key list. `UserActions.UsageIgnoresOrder` shows that the usage each key shows does not depend on that order.
- `ModelPriceActions.UploadPriceTable`: an upload that names the same model twice is processed entry by entry as written; no property is stated about such uploads beyond every entry being reported once.
