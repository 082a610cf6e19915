# Sessions, metering, mailbox sync and codecs, in Dafny

A Dafny model of the stateful core of the application: what the server, its
caches, its native client and its mailbox integrations keep true however their
steps interleave, and what its hand-written codecs and aggregations compute.

`dafny verify dfyconfig.toml` checks everything. Each file is one component:

| file | what it models |
|---|---|
| `Sessions.dfy` | the session tables and every atomic step the server takes on them |
| `FamilyChains.dfy` | the invariant: a family's stored rows are one `replacedBy` chain |
| `SessionHistory.dfy` | the server over whole runs |
| `Paths.dfy` | joining stretches of runs, for the concrete runs |
| `SessionStore.dfy` | the exported functions as methods of one object, and their agreement with the steps |
| `SessionCache.dfy` | the bounded FIFO cache with stale-on-error lookups |
| `AccessGate.dfy` | the bearer check: server, cache and requests composed |
| `BearerClient.dfy` | the client transport, and the client composed with the server |
| `UsageMeter.dfy` | meters, one-time tokens, transactions |
| `BackfillBudget.dfy` | the backfill budget resolver, alone and interleaved |
| `IdempotencyTokens.dfy` | the dedup tokens and a parser for them |
| `JwtDecode.dfy` | base64url and UTF-8 decoding |
| `OutlookSync.dfy` | delta cursors |
| `GmailLabels.dfy`, `OutlookCategories.dfy` | label provisioning and reconciliation |
| `RateLimit.dfy` | the fixed-window limiter |
| `TaxonomyRoutable.dfy`, `InboxProfile.dfy` | the reachability count and the sender signal |

## How it is modelled

- **Steps.** A database statement, or a whole transaction, is one atomic step.
  A call is a sequence of such steps and any other call's steps, a sweep, a
  reset or a clock tick may happen between them. The clock never goes back.
  A main theorem about a run quantifies over every such interleaving.
- **Objects.** Code that updates state in place is a class whose methods are
  proved against a documented outcome (`Rotated`, `ResetDone`, `LookedUp`,
  `Resolved`, `Provisioned`, `Covers`, ...). `UninterruptedRotation`,
  `UninterruptedLogout`, `ResetStepIsDone`, `UninterruptedLookup` and
  `UninterruptedResolve` prove that the step machines the run theorems are about
  have the same outcomes when nothing interferes.
- **Names.** Ids, raw tokens and family names are fresh; hashing is injective,
  so a row is modelled as holding the raw token it was issued for.
- **Parameters.** Times, loader results, provider answers, JSON, lower-casing,
  the subject tokenizer, the no-reply classifier and the term order are
  parameters or nondeterministic, so the results hold for any of them.

## Where the code and its comments differ

The model follows the code. These are the differences that matter, each with
the lemma that settles it:

- The rotation comment says a child minted for a deleted account is orphaned
  (`packages/auth/src/refresh-token.ts:107-108`). The code returns before it mints one;
  the parent stays consumed. Under the account foreign key this branch is dead:
  `EveryClaimMints`.
- The transport comment says a refresh token is never spent twice
  (`packages/api-client/src/bearer-transport.ts:69-70`). `PresentsUsedIffGaveUp` gives the exact
  condition over every run: a refresh presents a used token if and only if the
  client had given up on an earlier request for that token which the server has
  answered with a pair. Without such losses the client never replays
  (`ClientNeverReplays`). `ClientWipesItself` is a run from empty tables, with nobody
  else present, in which one lost answer ends with the client's own call deleting
  its family.
- The resolver comment promises one grace per inbox per rolling year
  (`packages/db/src/usage-meter.ts:252-253`). `YearApartIffLookedAfter` decides it for any two
  claims: they are more than a year apart if the first was made before the second
  looked for a recent claim, and otherwise they are not, unless the first claim's own
  resolve took a year. `StalledResolveClaimsAsWell`
  is a run from empty tables, for every inbox and cap, in which a resolve that
  stalls between its look and its claim over the turn of the month is granted a
  grace next to February's.
- A stale answer "still enforces a revocation seen before the outage"
  (`apps/api/src/app.ts:138-140`). `StaleAnswerIsRejected` shows that it does when the entry held
  was stored more than the longest load after the reset. `SlowLoadHidesReset` is a
  run in which a load that read before the reset stores after one that saw it, and
  a later outage admits the old epoch.
- A pruned marker "can never cause a double-count" (`packages/db/src/usage-meter.ts:110-111`).
  `ExactlyOnce` gives the exact condition: counting is exactly-once if and only if no
  token is presented after its marker is gone; `PromptReplaysCountOnce` shows that
  presenting every token within the 90 days is enough.
- Outlook reconcile is described as exact (`packages/outlook/src/graph-client.ts:812-816`).
  The skip test compares a list with a case-folded map, so a message that carries
  two spellings of one category can be skipped although a desired one is missing.
  `ConvergesIff` gives the exact condition, `TwoSpellingsCanBeSkipped` an instance.

## Model

| member | source | states |
|---|---|---|
| SessionHistory.StepKeepsInv | packages/auth/src/refresh-token.ts:30-175 | every step of every call, sweep, reset or account change keeps the table invariant, the validity of what pending calls have read, and every family's chain |
| SessionHistory.FamilyIsOneChain | packages/auth/src/refresh-token.ts:92-132 | in every reachable state the stored rows of a family form one `replacedById` chain, and a family that has rows has exactly one usable row, the newest |
| SessionHistory.AtMostOneChild | packages/auth/src/refresh-token.ts:109-126 | over any run at most one rotation transaction mints a child for a given row |
| SessionHistory.EveryClaimMints | packages/db/prisma/schema.prisma:934-946 | with rows cascading on account deletion, a rotation that claims its row always finds the account and mints |
| SessionHistory.StepEvolves | packages/auth/src/refresh-token.ts:62-175 | no step reuses a name, unuses or revives a row, refills a dead family, lowers an epoch or revives a reset token |
| SessionHistory.DeletedFamilyStaysDeleted | packages/auth/src/refresh-token.ts:150-158 | once a family has no rows it never has one again, and no rotation still in progress can claim for it |
| SessionHistory.LateReplayKillsFamily | packages/auth/src/refresh-token.ts:70-78 | a replay decided more than 60 s after the token's use leaves its whole family dead for ever from its wipe step on |
| SessionHistory.EarlyReplayChangesNothing | packages/auth/src/refresh-token.ts:80-90 | a replay within 60 s changes no table; it goes on to wipe only if the child it looks for was consumed |
| SessionHistory.ResetEndsEveryEarlierRow | packages/auth/src/password-reset.ts:59-88 | after a successful reset, or a first verification, no row the account had at any earlier moment is stored or can be claimed, at any later time |
| SessionHistory.ResetTokenSucceedsOnce | packages/auth/src/password-reset.ts:65-78 | over any run a reset token succeeds at most once |
| SessionHistory.MintedEpochIsTheAccounts | packages/auth/src/refresh-token.ts:116-131 | the epoch a rotation returns is the account's at the moment of the claim |
| SessionHistory.ResetOvertakesEarlierEpochs | packages/auth/src/password-reset.ts:73-76 | an epoch returned before a successful reset or a first verification is behind the account's ever after |
| SessionHistory.ResetAdvancesEpoch | packages/auth/src/provision.ts:196-203 | a first verification that drops a password, like a reset, advances the account's epoch by one and no other account's |
| FamilyChains.ChainAfterMint | packages/auth/src/refresh-token.ts:110-126 | consuming the newest row and linking its child extends the chain by that child |
| FamilyChains.UnusedIsNewest | packages/auth/src/refresh-token.ts:92-113 | the unused row of a family is the last of its chain |
| FamilyChains.ChainAfterSweep | packages/auth/src/refresh-token.ts:170-175 | an expiry sweep leaves a suffix of the chain, because expiry grows along it |
| FamilyChains.ChainWithoutUser | packages/auth/src/refresh-token.ts:164-166 | deleting a user's rows takes all rows of a family or none, and leaves a chain |
| SessionStore.Store.FindUnique | packages/auth/src/refresh-token.ts:65-68 | finds the row with the token, or nothing exactly when there is none |
| SessionStore.Store.IssueRefreshToken | packages/auth/src/refresh-token.ts:30-46 | adds one unused row of the given or a fresh family that expires in 30 days, and touches no other |
| SessionStore.Store.RotateRefreshToken | packages/auth/src/refresh-token.ts:62-132 | the documented outcome in every case: unknown, replayed late, replayed early with or without a fork, expired, rotated |
| SessionStore.Store.ConsumeAndMint | packages/auth/src/refresh-token.ts:109-132 | the transaction marks the row used, mints and links one child of the same user and family, and returns the account's epoch; nothing else changes, in the row or the tables |
| SessionStore.UninterruptedRotation | packages/auth/src/refresh-token.ts:62-132 | the interleaved steps of one rotation, taken alone, end within four steps with that same documented outcome |
| SessionStore.ConsumeStepIsDone | packages/auth/src/refresh-token.ts:109-119 | under interference the rotation transaction has that outcome on a row still unused, and on a used or deleted row changes no table and returns nothing |
| SessionStore.Store.RevokeRefreshToken | packages/auth/src/refresh-token.ts:150-158 | deletes exactly the presented token's family, or nothing for an unknown token |
| SessionStore.UninterruptedLogout | packages/auth/src/refresh-token.ts:150-158 | the steps of a sign-out, taken alone, do the same, for a known or an unknown token |
| SessionStore.Store.RevokeAllRefreshTokensForUser | packages/auth/src/refresh-token.ts:164-166 | exactly the user's rows go |
| SessionStore.Store.DeleteExpiredRefreshTokens | packages/auth/src/refresh-token.ts:170-175 | exactly the expired rows go, and they are counted |
| SessionStore.Store.IssuePasswordResetToken | packages/auth/src/password-reset.ts:26-43 | the account has this token and no other live one, for an hour from this issuance; other accounts keep theirs |
| SessionStore.Store.ApplyPasswordReset | packages/auth/src/password-reset.ts:59-88 | token, password, sessions and epoch change together, or nothing does |
| SessionStore.ResetStepIsDone | packages/auth/src/password-reset.ts:65-77 | the reset step of the run theorems has the same all-or-nothing outcome |
| SessionStore.VerifyStepIsDone | packages/auth/src/provision.ts:196-203 | a first verification drops the password, deletes the account's rows and advances its epoch, for that account alone |
| SessionStore.LoginStepIsDone | packages/auth/src/refresh-token.ts:30-46 | a login stores one unused row of a new family, expiring in 30 days, and changes nothing else |
| SessionStore.DeletionStepsAreDone | packages/auth/src/refresh-token.ts:164-175 | the sweep and revocation steps delete exactly their rows |
| SessionStore.IssueStepIsDone | packages/auth/src/password-reset.ts:36-40 | the issuing step gives the account this one live token |
| SessionCache.StaleWhileErrorCache.Set | packages/auth/src/session-account-cache.ts:75-83 | stores the entry with its expiry; only a new key in a full cache evicts, and then the first key in |
| SessionCache.StaleWhileErrorCache.Get | packages/auth/src/session-account-cache.ts:57-71 | the four outcomes, each exactly when the documentation says and with the cache it leaves |
| SessionCache.StaleWhileErrorCache.Invalidate | packages/auth/src/session-account-cache.ts:88-90 | drops the key and nothing else, and keeps the order of the rest |
| SessionCache.UninterruptedLookup | packages/auth/src/session-account-cache.ts:57-71 | the interleaved steps of one lookup, taken alone, have the documented outcome |
| SessionCache.CacheStaysValid | packages/auth/src/session-account-cache.ts:75-83 | over any run the cache never holds more than 10,000 entries |
| SessionCache.EntryOrigin | packages/auth/src/session-account-cache.ts:57-90 | every entry was stored by one step and its key left alone since |
| SessionCache.FreshIsLastStored | packages/auth/src/session-account-cache.ts:58-62 | a fresh answer is the value last stored for the key, less than one TTL ago |
| SessionCache.StaleIsTheEntryAtBegin | packages/auth/src/session-account-cache.ts:67-70 | a failed lookup answers with the entry held when it began, and is unavailable only if there was none |
| SessionCache.OrderIsByAge | packages/auth/src/session-account-cache.ts:76-82 | insertion order is the order of uninterrupted presence; overwriting keeps a key's place |
| SessionCache.EvictsTheLongestPresent | packages/auth/src/session-account-cache.ts:76-81 | a store pushes a key out only of a full cache, and only the one present the longest |
| AccessGate.Gate.CheckBearer | apps/api/src/app.ts:134-155 | refuses exactly an unverified token, a vanished account and an epoch below the account's; with no answer at all the token passes |
| AccessGate.CurrentAccessIsAdmitted | apps/api/src/app.ts:144-155 | over runs: as long as no step since its rotation ends the account's sessions or deletes it, a token is let through by every answer that does not deny the account, fresh, loaded, stale or none |
| AccessGate.LoadedAccessIsAdmitted | apps/api/src/app.ts:144-155 | over runs: a request begun after the rotation and answered by its loader reads exactly the rotation's epoch, and passes |
| AccessGate.ForgottenIsReadAgain | packages/auth/src/session-account-cache.ts:85-90 | after an invalidation the account's next request asks its loader, and other accounts' entries stay |
| AccessGate.StepKeepsOvertaken | apps/api/src/app.ts:134-153 | once an epoch is overtaken, no entry or pending read that can still be served late shows an older one |
| AccessGate.RevokedAccessIsRejected | apps/api/src/app.ts:141-151 | a token minted from a rotation before a reset or first verification is rejected by every request that begins a TTL plus the longest loader delay after it and is answered fresh or loaded |
| AccessGate.StaleAnswerIsRejected | apps/api/src/app.ts:136-140 | a request whose load fails is answered from the entry held when it began, and rejected if that entry was stored more than the longest loader delay after the reset |
| AccessGate.SlowLoadHidesReset | packages/auth/src/session-account-cache.ts:63-70 | a run, for every TTL and loader delay, in which an older load stores over a newer one and a request in the outage that follows is admitted with the epoch from before the reset |
| BearerClient.BearerTransport.RefreshAccess | packages/api-client/src/bearer-transport.ts:113-120 | joins the refresh in flight, or starts one |
| BearerClient.BearerTransport.FetchAnswered | packages/api-client/src/bearer-transport.ts:124-131 | only a 401 makes a call wait for a refresh |
| BearerClient.BearerTransport.BeginRefresh | packages/api-client/src/bearer-transport.ts:85-97 | presents the stored token, or clears the store and reports a failure |
| BearerClient.BearerTransport.EndRefresh | packages/api-client/src/bearer-transport.ts:92-110 | stores the pair, clears on a refusal, keeps the store on a network error |
| BearerClient.BearerTransport.Finally | packages/api-client/src/bearer-transport.ts:115-131 | ends the flight; every call that waited for it retries with its access token if it brought one and gives up if not, and no other call moves |
| ClientServer.SingleFlight | packages/api-client/src/bearer-transport.ts:83-120 | at any time at most one refresh is in flight, and every waiting call waits for that one |
| ClientServer.WaitersGetThePair | packages/api-client/src/bearer-transport.ts:92-131 | over runs: every call waiting for a refresh when it ends retries with exactly the pair the server answered with, or gives up if there was none; the store follows |
| ClientServer.UsedStays | packages/auth/src/refresh-token.ts:92-132 | a stored used row of a token the client holds was rotated by one of the client's own calls, across every server step |
| ClientServer.FlightStays | packages/api-client/src/bearer-transport.ts:92-105 | while a refresh is at the server, the pair it may be answered with holds a token no request was ever made with |
| ClientServer.PresentsUsedIffGaveUp | packages/api-client/src/bearer-transport.ts:92-110 | over every run, a refresh presents a used token if and only if the client had given up on an earlier request for it that the server has answered with a pair |
| ClientServer.UsedIffRotatedByMine | packages/api-client/src/bearer-transport.ts:92-110 | in every reachable state a stored token issued to the client is used exactly when one of its own requests, timely or late, was answered with a pair |
| ClientServer.ClientNeverReplays | packages/api-client/src/bearer-transport.ts:83-132 | with any number of concurrent calls, no exchange given up on while its call could still succeed and no request arriving after its exchange, the client never presents a used token and none of its calls looks for a fork or wipes a family |
| ClientServer.LostAnswerWipesOwnFamily | packages/api-client/src/bearer-transport.ts:106-110 | in any run, losing the answer to a rotation leaves the spent token in the store, and the next refresh after the grace window sends the client's own call to the wipe |
| ClientServer.ClientWipesItself | packages/api-client/src/bearer-transport.ts:106-110 | a run from empty tables, with one client and nobody else, that ends with the client's own call deleting its family after one lost answer |
| UsageMeter.MeterStore.ClaimIdempotencyToken | packages/db/src/usage-meter.ts:86-92 | true for the first caller only; remembers the token |
| UsageMeter.MeterStore.PruneIdempotencyMarkers | packages/db/src/usage-meter.ts:123-129 | exactly the markers older than 90 days go, and they are counted |
| UsageMeter.MeterStore.RecordMeterUsage | packages/db/src/usage-meter.ts:144-176 | adds the delta exactly when the token is new or absent, to that meter only |
| UsageMeter.Conservation | packages/db/src/usage-meter.ts:144-176 | for every history a meter shows its distinct units plus those presented again after their marker was gone |
| UsageMeter.ExactlyOnce | packages/db/src/usage-meter.ts:131-143 | every meter equals the sum of its distinct units if and only if no forgotten token is presented again |
| UsageMeter.AbortsLeaveNoTrace | packages/db/src/usage-meter.ts:156-176 | any mix of committed and aborted transactions equals the history of the committed ones |
| UsageMeter.MarkerOutlivesReplays | packages/db/src/usage-meter.ts:104-129 | a token seen within the retention time still has its marker, whenever sweeps happen |
| UsageMeter.PromptReplaysCountOnce | packages/db/src/usage-meter.ts:104-129 | replays within the retention time never count twice |
| BackfillBudget.BudgetStore.GetBackfillGraceUsed | packages/db/src/usage-meter.ts:63-76 | true exactly when some backfill row of this inbox, of any window, was stamped at most 365 days ago |
| BackfillBudget.RefusesIffClaimed | packages/db/src/usage-meter.ts:289-303 | over runs: the gate refuses an inbox exactly when that inbox claimed in an earlier step with a stamp at most 365 days before the clock reading |
| BackfillBudget.GateIsPerInbox | packages/db/src/usage-meter.ts:63-76 | two meter tables that agree on this inbox's backfill rows get the same answer |
| BackfillBudget.BudgetStore.EnsureBackfillGrant | packages/db/src/usage-meter.ts:215-221 | the workspace's grant exists, once, and no other changes |
| BackfillBudget.BudgetStore.ResolveBackfillBudget | packages/db/src/usage-meter.ts:257-326 | the documented budget, grant and claim in every case |
| BackfillBudget.UninterruptedResolve | packages/db/src/usage-meter.ts:257-326 | the interleaved statements of one resolve, taken alone, have that same outcome |
| BackfillBudget.SerialRunsAreBounded | packages/db/src/usage-meter.ts:272-279 | run one at a time, a window's use stays at the cap until the grace is claimed and at twice the cap after |
| BackfillBudget.ConcurrentRunsAreBounded | packages/db/src/usage-meter.ts:265-326 | with at most k runs in flight, use never exceeds k times twice the cap |
| BackfillBudget.AtMostOneClaim | packages/db/src/usage-meter.ts:304-318 | one inbox and window claims its grace at most once under any interleaving |
| BackfillBudget.YearApartIffLookedAfter | packages/db/src/usage-meter.ts:289-312 | for any two claims of an inbox, whatever overlaps them and across all windows: more than 365 days apart if the first was made before the second's gate look, and within them exactly when the look came first |
| BackfillBudget.EveryClaimLooked | packages/db/src/usage-meter.ts:292-303 | every claim has such a gate look, its resolve's last step before it |
| BackfillBudget.ClaimsAreAYearApart | packages/db/src/usage-meter.ts:289-312 | when no other resolve of the inbox is in progress as a claim is made, every later claim is more than 365 days after it, across all windows |
| BackfillBudget.StalledResolveClaimsAsWell | packages/db/src/usage-meter.ts:289-312 | a run from empty tables, for every inbox, workspace and positive cap and with windows taken from the clock, in which two windows claim within a month |
| BackfillBudget.OverlappingResolvesBothClaim | packages/db/src/usage-meter.ts:289-312 | two resolves of one inbox for different windows that both passed the gate are both granted |
| IdempotencyTokens.TokenRoundTrip | packages/db/src/idempotency-tokens.ts:16-45 | a token can be parsed back to the unit it names, whatever the inbox key holds, exactly when a thread id in it has no underscore |
| IdempotencyTokens.TokensAreInjective | packages/db/src/idempotency-tokens.ts:16-45 | equal tokens name one unit, across all four builders, for all arguments whose thread ids embed no whole date; a continuation never equals a done token |
| IdempotencyTokens.ThreadTokensCollideIffDateEmbedded | packages/db/src/idempotency-tokens.ts:16-18 | for arbitrary thread ids: a token equals one of a shorter thread id exactly when the id embeds a whole date |
| IdempotencyTokens.SameLengthThreadTokens | packages/db/src/idempotency-tokens.ts:16-18 | thread ids of one length never collide, whatever they contain |
| IdempotencyTokens.DecimalRoundTrip | packages/db/src/idempotency-tokens.ts:32 | the decimal counters can be read back |
| IdempotencyTokens.TokenFormats | packages/db/src/idempotency-tokens.ts:16-45 | the formats, on examples with every window |
| JwtDecode.DecodeBytes | packages/api-client/src/jwt.ts:28-46 | the 32-bit shift buffer yields exactly the octets of the concatenated sextets, strangers skipped and '=' ending, on every input |
| JwtDecode.AlphabetIsStandard | packages/api-client/src/jwt.ts:26-36 | the alphabet and its URL-safe letters are those of the standard, one by one |
| JwtDecode.TruncationKeepsLowBits | packages/api-client/src/jwt.ts:38 | truncating to a signed 32-bit value keeps the bits the loop will still output |
| JwtDecode.PushHolds | packages/api-client/src/jwt.ts:38-43 | one pass keeps the pending bits at the bottom of the buffer and outputs the next octet when complete |
| JwtDecode.Base64RoundTrip | packages/api-client/src/jwt.ts:28-46 | decoding the base64url encoding of any byte string gives it back, padded or not |
| JwtDecode.StrangersAreSkipped | packages/api-client/src/jwt.ts:34-37 | a character outside the alphabet changes nothing, wherever it stands |
| JwtDecode.Utf8Decode | packages/api-client/src/jwt.ts:48-72 | the loop ends on every byte string and computes the step-by-step decoding, missing bytes read as zero |
| JwtDecode.Utf8RoundTrip | packages/api-client/src/jwt.ts:48-72 | decoding the UTF-8 form of any scalar values gives their UTF-16 form, surrogate pairs included |
| JwtDecode.MalformedBytes | packages/api-client/src/jwt.ts:52-69 | what cut-off and stray bytes decode to, on examples |
| JwtDecode.Base64UrlDecode | packages/api-client/src/jwt.ts:28-46 | the two loops together |
| JwtDecode.PayloadRoundTrip | packages/api-client/src/jwt.ts:28-72 | the whole decoder undoes the whole encoding of any text |
| OutlookSync.CursorRoundTripIff | packages/outlook/src/graph-client.ts:73-89 | parsing undoes serializing exactly for cursors without empty links |
| OutlookSync.GraphClient.WalkDelta | packages/outlook/src/graph-client.ts:378-399 | the loop collects every page of the chain and falls back to its start without a final link |
| OutlookSync.WalkCovers | packages/outlook/src/graph-client.ts:378-399 | the entries are exactly the log from where the chain began, and the new cursor neither passes them nor goes back, even when the chain ends without a link |
| OutlookSync.WalkIsItsPages | packages/outlook/src/graph-client.ts:378-399 | a walk returns exactly when its chain completes, with the contents of all its pages; the new cursor is the final link, and the start only if there is none |
| OutlookSync.WalkAdvances | packages/outlook/src/graph-client.ts:378-399 | a walk whose chain ends with a link moves the cursor right behind everything it walked |
| OutlookSync.EstablishIsItsPages | packages/outlook/src/graph-client.ts:363-375 | an established cursor is the chain's final link, and a chain that fails or has none establishes nothing |
| OutlookSync.GraphClient.EstablishDeltaCursor | packages/outlook/src/graph-client.ts:363-375 | follows the chain to its final link; a chain without one is an error |
| OutlookSync.Collect | packages/outlook/src/graph-client.ts:423-432 | threads, removals and the threads this folder is first to name |
| OutlookSync.GraphClient.ListChangesSince | packages/outlook/src/graph-client.ts:401-469 | the changes and cursor of both folders, or an error and no cursor |
| OutlookSync.CallReportsWhatItPasses | packages/outlook/src/graph-client.ts:401-469 | one call reports every entry its new cursor moves past, in both folders, with mail arriving meanwhile |
| OutlookSync.CallReturnsIff | packages/outlook/src/graph-client.ts:401-469 | a call returns exactly when both its chains complete |
| OutlookSync.CallReportsExactly | packages/outlook/src/graph-client.ts:410-468 | a thread or removal is reported exactly when an entry walked names it, and flagged sent-only exactly when only Sent Items names it |
| OutlookSync.FirstSentCursorReportsNoneOfIt | packages/outlook/src/graph-client.ts:443-449 | the first call of an inbox-only cursor takes Sent Items from the end of its chain and reports the inbox alone |
| OutlookSync.EachEntryIsWalkedOnce | packages/outlook/src/graph-client.ts:401-469 | over any run of calls whose chains end with links, some calls failing, what is walked in each folder is the log between the first and the last cursor, each entry once |
| OutlookSync.QuietCallReportsNothing | packages/outlook/src/graph-client.ts:401-469 | a call that starts at the ends of both logs and meets no new mail reports nothing |
| OutlookSync.BareLinkIsInboxOnly | packages/outlook/src/graph-client.ts:73-74 | a bare stored link is the inbox cursor alone |
| OutlookSync.NoChangeIsSkipped | packages/outlook/src/graph-client.ts:401-469 | over any run of calls, some failing, every entry between the first stored cursors and the last is reported by some call |
| GmailLabels.GmailClient.EnsureLabel | packages/gmail/src/gmail-client.ts:791-822 | the name is known afterwards, by creation or by the re-list after a conflict, and no existing label changes; it throws only when the provider failed or the re-list was out of date |
| GmailLabels.GmailClient.EnsurePath | packages/gmail/src/gmail-client.ts:682-687 | every prefix of the path is known, and only missing prefixes were created |
| GmailLabels.GmailClient.EnsureFolderLabels | packages/gmail/src/gmail-client.ts:675-699 | every prefix of every path is a label, each node maps to its last full path's label, existing labels stay, every label created as a leaf is colored and no label that existed before; it throws only when the provider failed |
| GmailLabels.GmailClient.EnsureTwice | packages/gmail/src/gmail-client.ts:664-673 | a second call creates and colors nothing and returns the same map, while others keep adding labels |
| GmailLabels.NamesNest | packages/gmail/src/gmail-client.ts:665-668 | paths nest by slashes |
| GmailLabels.ThreadLabels.ApplyThreadFolderLabels | packages/gmail/src/gmail-client.ts:728-775 | a missing thread or failed fetch changes nothing; a converged thread succeeds without a request; otherwise the provider's answer is the outcome, and when applied the thread carries every desired label, no other managed one, and all others as before |
| GmailLabels.ReconcileConverges | packages/gmail/src/gmail-client.ts:721-742 | afterwards the desired labels are on the thread and no other managed one is, labels that are neither are untouched on every message, and nothing is left to write |
| GmailLabels.EmptyThreadConvergesOnlyOnNothing | packages/gmail/src/gmail-client.ts:735-742 | a thread without messages is converged exactly when nothing is desired |
| GmailLabels.FoldRecord | packages/gmail/src/gmail-client.ts:382-397 | one change record's threads and disqualifications |
| GmailLabels.FoldHistory | packages/gmail/src/gmail-client.ts:380-406 | a changed thread is a sent-only candidate exactly when all its entries, on every page, are outbound additions |
| OutlookCategories.Messages.ReconcileMessage | packages/outlook/src/graph-client.ts:830-858 | one message is reconciled, skipped when it looks right, or untouched; it fails exactly when a request failed, and a vanished message is no failure |
| OutlookCategories.Messages.ApplyThreadFolderLabels | packages/outlook/src/graph-client.ts:819-860 | each message ends reconciled or, after an error, untouched; messages that look right are not written, and after a call that returns all of them do |
| OutlookCategories.NextFolds | packages/outlook/src/graph-client.ts:840-844 | the next list holds, up to case, the unmanaged categories and the desired ones, each once |
| OutlookCategories.ConvergesIff | packages/outlook/src/graph-client.ts:846-849 | a message converges if and only if it is rewritten or it had no two spellings of one category |
| OutlookCategories.TwoSpellingsCanBeSkipped | packages/outlook/src/graph-client.ts:846-849 | a message carrying "vip" and "VIP" with the folder category desired is skipped and stays without it |
| OutlookCategories.ReconcileTwice | packages/outlook/src/graph-client.ts:846-849 | a second reconcile writes nothing, from any starting list |
| OutlookCategories.ForeignCategoriesAreKept | packages/outlook/src/graph-client.ts:839-844 | the managed part is exactly the desired one, and the user's own categories keep their spelling and order |
| OutlookCategories.DesiredAreSpelledAsGiven | packages/outlook/src/graph-client.ts:841-844 | a desired category ends up spelled as desired, whatever spelling the message had |
| RateLimit.RateLimitStore.IncrFixedWindow | packages/auth/src/rate-limit-store.ts:56-71 | the script as one step; no counter is left without an expiry |
| RateLimit.RateLimitStore.CheckRateLimit | packages/auth/src/rate-limit-store.ts:74-82 | allowed exactly while the count is within the limit, with the remainder |
| RateLimit.EveryCounterExpires | packages/auth/src/rate-limit-store.ts:48-62 | over any run every counter expires one window after the attempt that started it and counts the attempts since |
| RateLimit.AllowedIff | packages/auth/src/rate-limit-store.ts:74-82 | over runs: an attempt is allowed exactly when fewer attempts than the limit have been made since the one that started the live counter |
| RateLimit.WindowAdmitsTwiceTheLimit | packages/auth/src/rate-limit-store.ts:56-82 | any interval of one window's length, both ends included, admits at most twice the limit, plus one limit per clear in it |
| TaxonomyRoutable.ChildrenByParent | packages/shared/src/taxonomy-routable.ts:43-48 | the child lists hold exactly the edges |
| TaxonomyRoutable.Visit | packages/shared/src/taxonomy-routable.ts:50-60 | the search ends on every graph and visits exactly what the root reaches by some path |
| TaxonomyRoutable.CountRoutableNonRootNodes | packages/shared/src/taxonomy-routable.ts:36-70 | the number of node entries that are reachable from the first root, not root and not catch-all |
| TaxonomyRoutable.CountsEntries | packages/shared/src/taxonomy-routable.ts:65-69 | the reference count is the number of positions that count, repeated ids included |
| TaxonomyRoutable.FirstRootIsFirst | packages/shared/src/taxonomy-routable.ts:40-41 | the search starts from the first root entry, and there is none exactly when no entry is a root |
| TaxonomyRoutable.IsTaxonomyRoutable | packages/shared/src/taxonomy-routable.ts:76-81 | routable exactly with at least three such entries |
| TaxonomyRoutable.AddingEdgesNeverLowers | packages/shared/src/taxonomy-routable.ts:36-70 | more edges never make fewer folders routable |
| TaxonomyRoutable.EdgeOrderIsIrrelevant | packages/shared/src/taxonomy-routable.ts:36-70 | the order and repetition of edges do not matter |
| InboxProfile.FindNoiseDomains | packages/db/src/inbox-profile.ts:135-150 | exactly the domains at least 80% of whose messages are no-reply |
| InboxProfile.Rank | packages/db/src/inbox-profile.ts:52-58 | the sorted prefix of the eligible terms, highest count first and ties in term order, in whatever order the map yields them; nothing eligible is missing while there is room |
| InboxProfile.RankIsUnique | packages/db/src/inbox-profile.ts:52-58 | there is only one such list |
| InboxProfile.TallyMessages | packages/db/src/inbox-profile.ts:135-177 | the two loops' maps equal the multisets of what each kept message adds |
| InboxProfile.BuildSenderSignal | packages/db/src/inbox-profile.ts:129-192 | every list and cluster is the ranking of its multiset |
| InboxProfile.SignalIgnoresOrder | packages/db/src/inbox-profile.ts:129-192 | permuted samples have equal noise domains and equal signals in every part |
| InboxProfile.NoNoiseInSignal | packages/db/src/inbox-profile.ts:152-160 | a noise domain is neither a sender domain nor a cluster |
| InboxProfile.ErasingNoiseKeepsTally | packages/db/src/inbox-profile.ts:152-177 | erasing every message of a noise domain leaves each tally of the second pass as it is: domains, names, keywords and every domain's keywords |
| InboxProfile.NoiseLeavesNoTrace | packages/db/src/inbox-profile.ts:129-192 | the signal equals that of the sample with all noise messages erased, in every part |

## Left out

- HTTP, Prisma, Redis, the mail providers, cryptography, randomness and clocks: they are parameters, fresh names, or nondeterministic outcomes as described above. Transactions are atomic, and one transport owns its token store.
- RevokedAccessIsRejected: covers requests answered fresh or loaded; StaleAnswerIsRejected covers stale answers, and an unavailable answer fails open by design. The source does not bound how long a loader takes, so the bound is a parameter of the theorems; zero makes the load one step.
- TokensAreInjective: leaves out thread ids that embed a whole date; ThreadTokensCollideIffDateEmbedded shows that exactly those can collide with a shorter one, and the store's own ids have no such shape. Window dates are four-digit years.
- PresentsUsedIffGaveUp: speaks of refreshes that present their token while the client waits; for one that arrives after its exchange, UsedIffRotatedByMine is what is stated.
- WindowAdmitsTwiceTheLimit: fixes one limit and window per key, as every caller does.
- The limiter's disabled and not-ready branches, `peekCount` and `throttleOnce`: single-branch facts.
- SessionHistory: a login stores a row after its own account check; how a sign-in obtains the epoch for its access token is not part of this model.
- Password-reset throttling, e-mail, verification state (a first verification is a step of its own, and the reset token the verify-email flow issues with it another), and the expiry check the caller of a reset makes.
- Gmail label colors are modelled as set or not, without the palette; renaming and the deletion of labels by others are not part of this model.
- Outlook's folder provisioning is not modelled: it matches category names up to case and adopts its own spelling on a conflict, without listing again.
- JSON parsing and the claims read from a decoded payload.
- `buildInboxProfile`'s queries, the tokenizer's regular expressions, plan ceilings, `meterWindowStart` and inbox-key normalization.
- Response bodies, headers and the retried request itself in the transport: only the token flow is modelled.
