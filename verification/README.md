# Verification model of the MCP OAuth server

This project models the state-keeping part of the server in Dafny and proves how its tables, caches
and wallets behave: on every input, in every run, and, where handlers really race, under every
interleaving of their database calls.

`dafny verify dfyconfig.toml` checks everything.

| files | what they model | granularity |
|---|---|---|
| `OAuthTables`, `OAuthGrants`, `TokenOps` | rows of the OAuth tables; what each handler does to them | one handler at a time |
| `GrantOutcomes`, `TokenOutcomes` | when each of these handlers succeeds, its errors, and its rows column by column | one handler at a time |
| `CodeExchange`, `CodeExchangeInvariant`, `CodeExchangeRuns`, `ExchangeSteps` | sessions, approvals, denials and code exchanges | one database call at a time |
| `ClaimClient`, `ClaimRace`, `ClaimRuns`, `ClaimDevices`, `ClaimWins` | the compare-and-set that claims a client, and its sweep of older devices | both |
| `TokenFamilies` | refresh rotation and revocation over whole families | one handler at a time |
| `TtlCache`, `TokenCache`, `TokenStaleness`, `TokenProvider` | the TTL cache, and the access-token cache in front of the tables | one call at a time |
| `Users`, `ResolveUser`, `ResolveRace`, `ResolvePair` | finding or creating the user of a Supabase identity | both |
| `GraphRefresh` | Microsoft Graph token refresh behind per-user locks | await points |
| `Overdraft` | balance precheck and settlement of gateway calls | one database call at a time |
| `Ledger`, `LedgerOutcomes`, `LedgerRuns`, `LedgerRefunds` | top-ups, Stripe events, debits, grants | one handler at a time |
| `Pricing`, `PricingAmounts`, `BillingCache`, `PriceTableOutcomes`, `PriceRace` | the cost formula, the package back-solve, the four price caches | one handler at a time; `PriceRace` one call at a time |
| `ExceptionWalk`, `TimeoutAgreement`, `CandidateUrls`, `RetryEngine`, `RetryOutcomes` | exception walk, URL candidates, retry and fallback | one call |

State machines are written as events with a total step function (an event that cannot happen changes
nothing) and a run is a fold over any sequence of events.  Parts of a state marked "history" are
written by the steps and read by nothing; they let a theorem name where a token or an entry came from.
Code that updates objects in place is a class whose methods are tied to a specification function or
relation, and the theorems are about that function.

SHA-256 and the S256 challenge are injective, generated ids and tokens are new values, and the clock,
the answers of Microsoft, Stripe and upstream servers, and the rows a `limit(1)` select picks are
parameters.  The modules called outcomes state results through the rows, amounts, times and texts
themselves, with their constants, independently of the functions the other modules compute with.
Credits and dollars are reals.

## What the code does not guarantee

The model follows the code.  Where a promise fails, a lemma gives the failing case and, where there is
one, the exact condition under which the promise holds.

- *One code per session.*  `mark_session_approved` accepts an issued code in place of the session id and
  then moves the row to a further code.  A session gets at most one code that can ever be redeemed if
  and only if this never happens (`OneCodeIffNeverReapproved`, `ReapprovalHandsOutTwoCodes`).  At any one
  moment there is only one, and only one token pair is ever issued.
- *A session id is a code.*  A pending session id can be exchanged as it is, for a pair bound to the owner
  of the client.  A session's tokens were issued without an approval if and only if the exchange presented
  the session id; for a public client this never happens (`IssuedWithoutApprovalIff`,
  `PendingSessionIsExchangeable`).
- *Duplicate devices.*  The sweep of `claim_unclaimed_client` runs before its compare-and-set.  A call
  deactivates the very client it claims if and only if another call of the same user won that client
  between this call's read and its select, the row still being active under the name read
  (`SweepsOwnClientIff`).  Two racing claims by one user can leave no active device of a name
  (`SameUserRaceDeactivatesClaimedClient`) or two (`TwoClientRaceLeavesBothActive`).  Another active device
  remains after a win if and only if an insert, a rename or another win of the user made it one between the
  call's select and its win (`DeviceRemainsIff`).  Where a user's calls for one name do not overlap, a win
  leaves one and no call deactivates the client it claims (`WinLeavesOneActiveDevice`, `CalmNeverSweepsOwn`).
- *Linked identities.*  The link update of `resolve_or_create_user` is not conditional on the row still
  being unlinked.  Two overlapping calls can end with a link overwritten if and only if they are for two
  unlinked ids that share an email, and it names an unlinked row that is active or without credit
  (`LinkCanBeLostIff`).  As long as no call begins while another id's call with its email is unfinished,
  links are never lost (`InterleavedCallsAgree`).
- *Revoking a refresh token* leaves its access token in force (`RevokedRefreshKeepsAccess`); section 2.1
  of RFC 7009 asks, as a SHOULD, for the access token to go as well.
- *Revocations from the admin and portal routes* do not reach the token cache.  A later load answers the
  unrevoked row if and only if a load before the revocation stored it, the entry is unexpired, and
  neither a provider write nor an eviction has dropped it (`BypassedRevocationMissedIff`); that can last
  up to a minute (`AnswerIsUnderAMinuteOld`).
- *Price edits.*  A lookup that selects before a cost-model write and sets after it leaves the old price in
  the cache the write has cleared; nothing else does (`OutdatedIffSetLate`, `LateSetLeavesOldValue`).  An
  answer misses a write by less than the time to live plus the time such a lookup took
  (`MissedWriteIsRecent`).
- *Refund events* carry no key of their own; every delivery takes the whole top-up (`RefundsAreDeliveries`).
- *Top-up status.*  The admin page rejects a request without looking at its status.  The status tells
  whether a row was credited if and only if no settled row is rejected that way (`StatusTellsCreditedIff`).
- *Reported balance.*  A debit that charges nothing reports balance 0.0 (`ReportedBalanceIsTrueIff`).
- *Timeouts.*  The single-chain check follows `__cause__ or __context__`.  Whatever the exceptions are, it can
  miss no timeout that the walk finds if and only if every reachable exception lies on that chain
  (`ChainCoversIff`), that is, no exception on it has a member, a cause or a context off it
  (`ChainCoversIffClosed`).  Members of a group and the context beside a cause are the two ways off
  (`GroupHidesTimeoutFromChain`, `CauseHidesContextFromChain`); a call that fails with a timeout there is not
  retried (`TimeoutRetriedIff`, `HiddenTimeoutEndsTheCall`).  On a cyclic chain without a timeout the check
  never returns (`ChainCheckHaltsIff`).
  A tool call ends if and only if no attempt it makes raises such a fault that is not an authorisation
  failure (`CallEndsIff`, `StuckIff`).
- *Stored zeros.*  The package page reads a stored rate of zero as its default; billing charges with the
  zero.  There the page's back-solve inverts the sell formula if and only if the withholding rate happens
  to make up for the defaults (`PageBackSolveExactIff`, `ZeroIvaBreaksTheBackSolve`).
- *Margin override.*  `llm_margin_override` is stored, cached and never used by the price
  (`MarginOverrideIsIgnored`).
- *A lost answer from Microsoft.*  Exactly after a rotated refresh token was lost on its way, the stored
  one is stale (`PresentedTokenStaleIffAnswerLost`).

Comments in the source that the code does not follow: pending sessions are said to expire in 5 minutes
(`src/oauth/provider.py:118`) and live for 1800 seconds; the webhook is called idempotent
(`src/gateway/stripe_webhook.py:4`), which its refund branch is not; price edits are said to propagate
within 60 seconds (`src/gateway/billing.py:21`), to which a late set adds the time its lookup took, and a
model price set late is kept for 300.

## Model

| member | source | states |
|---|---|---|
| `GrantOutcomes.AuthorizeStores` | src/oauth/provider.py:118-152 | The pending session's row column by column, for 1800 seconds, and no other row |
| `GrantOutcomes.ApproveIff` | src/oauth/provider.py:175-217 | An approval succeeds if and only if the key is stored and its expiry is not before now; the row then moves to the code for 600 seconds, with its other columns, its plain resource and its user; each other case has its error and changes nothing |
| `GrantOutcomes.DenyRemoves` | src/oauth/provider.py:505-510 | A denial removes the row at the key and no other |
| `GrantOutcomes.ExchangeIff` | src/oauth/provider.py:244-276 | A pair is issued if and only if the key is stored for that client, its expiry is not before now, there is no challenge or a non-empty verifier whose S256 image it is, and a public client's row has a user |
| `GrantOutcomes.ExchangeRefusals` | src/oauth/provider.py:244-276 | The error of every other case, and that only a public client's missing user is found after the code is gone |
| `GrantOutcomes.ExchangeIssues` | src/oauth/provider.py:264-317 | Every column of the two new rows, both lifetimes, and all other rows as they were |
| `CodeExchangeInvariant.RunKeepsInv` | src/oauth/provider.py:175-323 | Every interleaving of sessions, approvals, denials, exchanges and deletions keeps the invariant: each key, handler and token belongs to one session, and an exchange that took a row is alone with its session |
| `CodeExchangeRuns.OnePairPerSession` | src/oauth/provider.py:258-317 | A session leads to at most one access token and one refresh token, linked to each other, however the database calls interleave (section 4.1.2 of RFC 6749) |
| `CodeExchangeRuns.OneRedeemableKey` | src/oauth/provider.py:209-217 | At any moment at most one key of a session can be exchanged, and none once an exchange has deleted the row |
| `CodeExchangeRuns.AccessTokensMatchSession` | src/oauth/provider.py:245-303 | An issued access token has its session's client and scopes, was exchanged with a non-empty verifier whose S256 image is the session's challenge if there is one, and for a public client carries a user some approval of that session was given |
| `CodeExchangeRuns.RefreshTokensMatchSession` | src/oauth/provider.py:305-315 | The same for the refresh token |
| `CodeExchangeRuns.OneCodeIffNeverReapproved` | src/oauth/provider.py:476-503 | At most one code handed out for a session can ever be redeemed, if and only if no approval of it was passed a live code in place of the session id |
| `CodeExchangeRuns.ReapprovalMovesTheCode` | src/oauth/provider.py:199-217 | Wherever a session has a live unexpired code, an approval that is passed it hands out a further code, the row moves to it, and the session has two codes |
| `CodeExchangeRuns.ReapprovalHandsOutTwoCodes` | src/oauth/provider.py:476-503 | A run from the start that reaches a session with two codes: a session, its approval, and an approval of the code |
| `CodeExchangeRuns.IssuedWithoutApprovalIff` | src/oauth/provider.py:237-262 | In every run a session's access token was issued without an approval having taken effect if and only if the exchange presented the session id; a public client's never was |
| `OAuthGrants.PendingSessionIsExchangeable` | src/oauth/provider.py:264-292 | Exchanging a pending session id gives a pair bound to the client's owner, and for a public client fails for want of a user |
| `CodeExchangeRuns.KeysAreEverLive` | src/oauth/provider.py:140-152 | The keys the theorems speak of are exactly those under which the code table held a row at some moment |
| `CodeExchangeRuns.UndisturbedApproval` | src/oauth/provider.py:476-503 | The calls of one approval, run without interleaving, have the effect and the answer of the whole handler, error cases included |
| `CodeExchangeRuns.UndisturbedExchange` | src/oauth/provider.py:237-323 | The calls of one exchange, run without interleaving, have the effect and the answer of the whole handler, error cases included |
| `ExchangeSteps.DeleteDecides` | src/oauth/provider.py:258-262 | Whoever finds the row at the delete takes it; any other exchange of the code is refused and changes nothing |
| `ExchangeSteps.OthersWait` | src/oauth/provider.py:258-262 | A call of one exchange leaves every other exchange where it is |
| `ExchangeSteps.ReadPassesIff` | src/oauth/provider.py:244-256 | The read lets exactly those exchanges on whose code is stored for the client, unexpired, with its challenge met |
| `ExchangeSteps.OwnerIsReadLate` | src/oauth/provider.py:264-282 | The user is bound as the client table stands after the delete |
| `ExchangeSteps.FailedInsertIssuesNothing` | src/oauth/provider.py:292-317 | An insert that fails leaves the code gone and the tables as they are |
| `ExchangeSteps.ApprovalReadsAgain` | src/oauth/provider.py:193-197 | The second read of an approval refuses a session that is gone, expired or another client's by then |
| `ExchangeSteps.LateRekeyHandsOutDeadCode` | src/oauth/provider.py:199-217 | The update of an approval column by column; when the row has gone meanwhile, a code is handed out that no row has |
| `ExchangeSteps.ClientsMove` | src/oauth/provider.py:89-95 | Clients are claimed, if not public and without an owner, and deleted, whatever the calls are at |
| `ExchangeSteps.ClientsCome` | src/portal/routes.py:340-355 | Time passes and clients are registered whatever the calls are at |
| `ExchangeSteps.CodesGo` | src/oauth/provider.py:565 | A deletion's statement on the code table takes exactly the client's rows, whatever the calls are at |
| `ExchangeSteps.AccessTokensGo` | src/oauth/provider.py:564 | The same for its statement on the access tokens |
| `ExchangeSteps.RefreshTokensGo` | src/oauth/provider.py:563 | The same for its statement on the refresh tokens |
| `ExchangeSteps.DenialTakesRow` | src/oauth/provider.py:505-510 | A denial takes the row at its key, whatever handler is at work on it |
| `ExchangeSteps.CallsBegin` | src/oauth/provider.py:237-239 | Anyone may begin an approval or an exchange with any text at any time |
| `ClaimClient.ClientTable.ClaimUnclaimedClient` | src/oauth/provider.py:45-102 | The claim with its sweep loop, tied to the specification `Claim` in all five outcomes |
| `ClaimClient.ClaimLeavesOneActiveDevice` | src/oauth/provider.py:70-83 | Run as a whole, a successful claim leaves the user no other active client of that name and changes no other row |
| `ClaimClient.ClaimIff` | src/oauth/provider.py:55-102 | Which of the five outcomes a claim has, by the row's owner and kind; only a win changes rows |
| `ClaimClient.ClaimWrites` | src/oauth/provider.py:70-95 | A win sets the owner and deactivates exactly the user's clients of the same non-empty name |
| `ClaimRace.RunKeepsInv` | src/oauth/provider.py:55-102 | The inductive invariant over every interleaving of claimers with registrations, with or without an owner, renames, deactivations and deletions of clients |
| `ClaimRuns.OwnerIsWriteOnce` | src/oauth/provider.py:89-95 | From every point of every run, an owner once set stays, no client changes its kind, and a deleted one never returns |
| `ClaimRace.OthersMove` | src/admin/routes.py:423-425 | Registrations, renames, deactivations and deletions of clients, each with its effect, happen whatever the claims are at |
| `ClaimRuns.ExactlyOneClaimWins` | src/oauth/provider.py:96-102 | For a client that starts unclaimed: only the winner returned True, only claimers for the winner's user returned False, and as long as the client is not deleted, once a claimer has finished there is a winner and claimers for others fail |
| `ClaimRuns.PublicStaysUnowned` | src/oauth/provider.py:59-62 | In every run a public client is owned by nobody |
| `ClaimRuns.SweepsOwnClientIff` | src/oauth/provider.py:70-83 | In every run a call deactivates the very client it claims if and only if another call of the same user won that client between this call's read and its select, the row then being active under the name read |
| `ClaimDevices.WinLeavesOneActiveDevice` | src/oauth/provider.py:70-95 | In every run in which no user has two unfinished calls for clients of one name, and no device of a calling user is inserted or renamed meanwhile, a win leaves the user no other active client of that name |
| `ClaimWins.DeviceRemainsIff` | src/oauth/provider.py:70-95 | In every run, when a call wins a named client, another active device of its user and name remains if and only if an event between the call's select and its win made it one and it stayed one |
| `ClaimWins.MakesIff` | src/oauth/provider.py:73-95 | The events that make a client an active device of a user and name: exactly an insert as one, a rename to that name, and a winning claim by that user |
| `ClaimWins.CalmNeverSweepsOwn` | src/oauth/provider.py:70-83 | In every run in which no user has two unfinished calls for clients of one name, no call deactivates the client it claims |
| `ClaimDevices.UndisturbedClaim` | src/oauth/provider.py:45-102 | The statements of one claim, run without interleaving, have the effect and the answer of the whole call, sweep included |
| `ClaimDevices.SameUserRaceDeactivatesClaimedClient` | src/oauth/provider.py:73-83 | A run of two claims by one user for one client that ends with it claimed and inactive |
| `ClaimDevices.TwoClientRaceLeavesBothActive` | src/oauth/provider.py:73-95 | A run of two claims by one user for two clients of one name that ends with both claimed and both active |
| `TokenOutcomes.RefreshIff` | src/oauth/provider.py:364-374 | A refresh token is rotated if and only if it is stored for the caller, unrevoked, and its expiry is absent, zero or not before now |
| `TokenOutcomes.RefreshRefusals` | src/oauth/provider.py:364-374 | The error of every other case; none changes a row |
| `TokenOutcomes.RefreshIssues` | src/oauth/provider.py:387-424 | Every column of the two new rows, with both lifetimes |
| `TokenOutcomes.RefreshRevokesOld` | src/oauth/provider.py:376-385 | Of the old rows exactly the presented token and the access token it names become revoked |
| `TokenOutcomes.RevokeTokenRevokes` | src/oauth/provider.py:432-453 | A stored access token is revoked with the refresh tokens linked to it, any other text as a refresh token; nothing else changes |
| `TokenOutcomes.AdminRevokes` | src/admin/routes.py:570-583 | The admin's revocation: the token and the refresh tokens linked to it |
| `TokenOutcomes.ClientRevokes` | src/oauth/provider.py:570-580 | Exactly the tokens of the client become revoked |
| `TokenOutcomes.PortalRevokes` | src/portal/routes.py:1345-1365 | For the owner of the device: it becomes inactive and exactly its tokens revoked; for anyone else nothing changes |
| `TokenOutcomes.DeletionRemoves` | src/oauth/provider.py:558-566 | No row of the client stays in the four tables, and every other row does |
| `TokenOutcomes.LoginInserts` | src/portal/routes.py:384-391 | The plugin's token row column by column, for a device of the user only |
| `TokenOutcomes.ClientWrites` | src/oauth/provider.py:45-102 | A registration adds its row and a claim changes the client table as the claim does; no token or code changes |
| `TokenOutcomes.SessionWrites` | src/oauth/provider.py:106-510 | The writes of sessions, approvals, denials, exchanges and rotations are those of their handlers |
| `TokenFamilies.RunKeepsInv` | src/oauth/provider.py:237-582 | The inductive invariant of token families over every run of whole handlers, with the admin and portal revocations and the plugin login |
| `TokenFamilies.EveryWriteHappens` | src/oauth/provider.py:237-582 | Every write whose generated values are new takes place in a run, with the effect of its handler |
| `TokenFamilies.OneLivePairPerFamily` | src/oauth/provider.py:376-424 | A family has at most one unrevoked access token and one unrevoked refresh token, the latter linked to the former (section 6 of RFC 6749) |
| `TokenFamilies.FamilySharesTerms` | src/oauth/provider.py:395-424 | All tokens of a family share client and scopes, and no two belong to different users |
| `TokenFamilies.BoundUserNeverChanges` | src/oauth/provider.py:397-400 | A family once bound to a user stays bound to that user through every step |
| `TokenFamilies.PublicTokensCarryConsent` | src/oauth/provider.py:264-282 | Through any number of rotations each token of a public client carries a user who consented to its session, and the client is owned by nobody |
| `TokenFamilies.DeadStaysDead` | src/oauth/provider.py:432-455 | No run revives a revoked or deleted token |
| `TokenFamilies.ReplayFails` | src/oauth/provider.py:364-379 | Presenting a rotated refresh token again fails, whatever happened in between |
| `TokenFamilies.RevokedRefreshKeepsAccess` | src/oauth/provider.py:449-453 | Revoking a refresh token leaves its access token unrevoked |
| `TokenFamilies.ClientRevocationKeepsInv` | src/oauth/provider.py:570-580 | Revoking all tokens of a client leaves no refresh token linked to a revoked access token |
| `TokenFamilies.PortalRevocationKeepsInv` | src/portal/routes.py:1363-1365 | The same for the portal's device revocation |
| `TokenFamilies.PairRevocationKeepsInv` | src/admin/routes.py:577-582 | The same for the admin's revocation of one access token |
| `TokenFamilies.DeletionKeepsInv` | src/oauth/provider.py:558-566 | The same for deleting a client |
| `TokenFamilies.PluginKeepsInv` | src/portal/routes.py:384-391 | The plugin login's token starts a family of its own |
| `TokenCache.CachedLoadIsPlainLookup` | src/oauth/provider.py:325-345 | While revocations go through the provider, a cached load answers exactly what the table says |
| `TokenCache.RevocationVisibleToNextLoad` | src/oauth/provider.py:382-385 | A revocation, rotation, client revocation or deletion through the provider is visible to the very next load |
| `TokenCache.WriteKeepsCoherent` | src/oauth/provider.py:437-442 | Every provider write leaves in the cache only entries that equal the current row |
| `TokenCache.AnswerIsUnderAMinuteOld` | src/oauth/provider.py:336-345 | Whatever bypasses the cache, a load answers the row as some call less than sixty seconds earlier found it |
| `TokenCache.BypassedRevocationShowsWithinAMinute` | src/portal/routes.py:1417-1419 | A token shown revoked by every table state of the last sixty seconds is answered as revoked |
| `TokenCache.EntriesAreFetched` | src/oauth/provider.py:337-341 | Every entry is a row some load found, kept at most sixty seconds, and for an expiring row less than a second past its expiry |
| `TokenCache.CacheStaysBounded` | src/oauth/provider.py:336-344 | The cache never holds more than 4096 tokens |
| `TokenStaleness.CachedIff` | src/oauth/provider.py:325-345 | A load answers from the cache if and only if an earlier load stored the row, that entry is unexpired, and no call in between invalidated it or threw it out; then the answer is the row of that load, else the table's |
| `TokenStaleness.EvictionNeedsFullCache` | src/cache.py:42-45 | Another token's load throws an entry out only from a cache full without that token, and only the entry closest to expiry |
| `TokenStaleness.BypassedRevocationMissedIff` | src/portal/routes.py:1345-1365 | A load after a revocation by the admin or the portal answers an unrevoked row if and only if a load before the revocation stored it unrevoked, that entry is unexpired, and no provider write or eviction dropped it since |
| `TokenStaleness.BypassedRevocationCanBeMissed` | src/admin/routes.py:570-583 | For every unrevoked row, without an end or valid for more than two seconds, and by either route: a run in which the load right after the revocation answers the unrevoked row |
| `TokenOutcomes.WriteDropsExactly` | src/oauth/provider.py:381-382 | Which cache entries each write drops: the rotated pair's access token, the presented token, all, or none |
| `TokenOutcomes.LoadCaches` | src/oauth/provider.py:330-345 | A load past the cache answers the row, and keeps it sixty seconds or until its expiry if that is sooner, an expired one not at all |
| `TokenOutcomes.LoadHits` | src/oauth/provider.py:326-329 | An unexpired entry is the answer, and nothing changes |
| `TokenProvider.Provider.LoadAccessToken` | src/oauth/provider.py:325-345 | One load as a relation between tables, cache and answer: hit, miss, expired row, time to live |
| `TokenProvider.Provider.Authorize` | src/oauth/provider.py:106-154 | Stores the pending session; the cache is untouched |
| `TokenProvider.Provider.GetPendingSession` | src/oauth/provider.py:158-173 | A row is pending exactly until its expiry second has passed |
| `TokenProvider.Provider.MarkSessionApproved` | src/oauth/provider.py:476-503 | New tables, answer and every refusal of an approval |
| `TokenProvider.Provider.MarkSessionDenied` | src/oauth/provider.py:505-510 | A denial removes the row, whatever key it is given |
| `TokenProvider.Provider.ExchangeAuthorizationCode` | src/oauth/provider.py:237-323 | New tables, answer and every refusal of an exchange, among them the one after the code is gone |
| `TokenProvider.Provider.ExchangeRefreshToken` | src/oauth/provider.py:356-430 | New tables, cache, answer and every refusal of a rotation |
| `TokenProvider.Provider.RevokeToken` | src/oauth/provider.py:432-455 | New tables and cache of a revocation by access or refresh token |
| `TokenProvider.Provider.RevokeClientTokens` | src/oauth/provider.py:570-582 | New tables and an empty cache |
| `TokenProvider.Provider.DeleteClient` | src/oauth/provider.py:558-568 | All rows of the client gone from the four tables, and an empty cache |
| `TokenProvider.RevokeFromAdminRoute` | src/admin/routes.py:570-583 | The admin's revocation: tables as by the provider, no cache in reach |
| `TokenProvider.RevokeFromPortalRoute` | src/portal/routes.py:1345-1365 | The portal's revocation, refused unless the caller owns the device |
| `TtlCache.Cache.Get` | src/cache.py:30-38 | A hit returns the unexpired value; an expired entry is dropped |
| `TtlCache.Cache.Set` | src/cache.py:40-46 | The key is stored; only a new key in a full store evicts, and then the entry closest to expiry |
| `TtlCache.Cache.Oldest` | src/cache.py:44 | The scan returns an entry that no other expires before |
| `TtlCache.Cache.Pop` | src/cache.py:48-49 | Exactly the key is removed |
| `TtlCache.Cache.Clear` | src/cache.py:51-52 | Nothing is left |
| `TtlCache.SetIsAnsweredForItsTtl` | src/cache.py:30-46 | What was set is answered until its time to live has passed, and not from that moment on |
| `TtlCache.GetDropsExpired` | src/cache.py:30-38 | A get drops the entry it finds expired and nothing else |
| `TtlCache.SetEvictsOnlyWhenFull` | src/cache.py:40-46 | A set throws out an entry only for a new key in a full store, and then one that no other expires before |
| `TtlCache.PopAndClearRemove` | src/cache.py:48-52 | A pop removes its key, a clear everything |
| `TtlCache.EveryCallGoesThrough` | src/cache.py:30-52 | Every call has an outcome: a full store has an entry to throw out |
| `TtlCache.StepKeepsSize` | src/cache.py:42-46 | No call lets the store outgrow maxsize |
| `TtlCache.CacheRefinesTimedMap` | src/cache.py:30-52 | After every run the store is within maxsize and agrees with an unbounded map that never evicts |
| `TtlCache.HitIsLatestSet` | src/cache.py:30-38 | A hit is the value of the latest set that no pop or clear has undone |
| `TtlCache.ResetEvictsNothing` | src/cache.py:42-46 | Setting a present key evicts nothing |
| `TtlCache.MissOnlyByFullEviction` | src/cache.py:42-45 | An unexpired entry is missing only if it was evicted while the store held maxsize unexpired entries |
| `Overdraft.PrecheckAdmitsIff` | src/gateway/routes.py:460-468 | A call is admitted if and only if its user has a row with at least the minimum balance; no balance moves |
| `Overdraft.UnreadPrecheckAdmits` | src/gateway/routes.py:469-471 | A precheck whose read fails admits the call |
| `Overdraft.FinishEndsCall` | src/gateway/routes.py:1353-1359 | A finished call is not in flight any more, charged or not |
| `Overdraft.BalancesMoveExactly` | src/gateway/routes.py:474-495 | How far each event moves each user's balance: by the charge, the credit or the debit, or not at all |
| `Overdraft.StepKeepsReserve` | src/gateway/routes.py:454-495 | Every precheck, settlement, credit and debit keeps the reserve for calls in flight |
| `Overdraft.BalanceStaysReserved` | src/gateway/routes.py:1291-1296 | Under every interleaving, balance less inflight charges stays above the minimum less k charges, less what was let through unchecked |
| `Overdraft.OverdraftIsBounded` | src/gateway/routes.py:1358-1359 | With at most k calls in flight, each charged at most c, the balance never falls below the minimum less k·c |
| `Overdraft.OnlySuccessfulCallsCharge` | src/gateway/routes.py:1356-1359 | A balance falls by exactly the charge of one of the user's calls that succeeded and was settled, by a debit without precheck, or by a credit of a negative amount; by nothing else |
| `Overdraft.BoundIsReached` | src/gateway/routes.py:454-495 | For every k, charge c and minimum some run ends exactly at the minimum less k·c |
| `ResolveUser.UserDirectory.ResolveOrCreate` | src/gateway/jwt_auth.py:170-248 | One call, tied to the specification `Resolve` in every branch |
| `ResolveUser.ResolveKeepsTable` | src/gateway/jwt_auth.py:170-248 | A call keeps the unique indexes, all emails, balances and existing links; on success the answer is linked to the id, on failure nothing changes |
| `ResolveUser.ServeKeepsTable` | migrations/2026-06-21_supabase_user_id_and_stripe.sql:14-16 | Over every serial run the link map stays injective and is never overwritten, emails stay unique, no balance changes |
| `ResolveUser.RepeatedResolutionAgrees` | src/gateway/jwt_auth.py:170-178 | Resolving an id again gives the same user, whatever happens in between, and changes nothing |
| `ResolveUser.EmailOwnerSharesWallet` | src/gateway/jwt_auth.py:181-223 | An unlinked id with an email on file gets that wallet, except from a linked row or an inactive one with credit |
| `ResolveUser.LinkedIdIsAnswered` | src/gateway/jwt_auth.py:170-178 | A linked id is answered with its user, and nothing changes |
| `ResolveUser.RefusalsOfTheEmailOwner` | src/gateway/jwt_auth.py:190-216 | Which error a linked row of another id and an inactive row with credit lead to |
| `ResolveUser.UnknownIdentityGetsNewUser` | src/gateway/jwt_auth.py:225-248 | The new row column by column, with a placeholder for a missing email, and when it collides |
| `ResolveRace.RunKeepsInv` | src/gateway/jwt_auth.py:170-248 | The inductive invariant over every interleaving of single statements, with account changes elsewhere, in which no call begins while another id's call with the same email is unfinished |
| `ResolveRace.InterleavedCallsAgree` | src/gateway/jwt_auth.py:225-248 | In those runs calls for one id that return, return the same user, and that user stays linked to the id |
| `ResolveRace.OneIdentityOneUser` | src/gateway/jwt_auth.py:170-248 | All calls for one id agree, whatever their emails |
| `ResolveRace.UndisturbedCall` | src/gateway/jwt_auth.py:170-248 | The statements of one call, run without interleaving, have the effect and the answer of the whole call, retry included |
| `ResolveRace.EmailRowDecides` | src/gateway/jwt_auth.py:189-223 | What the row found under the email leads to, also when another call has linked it to the same id meanwhile |
| `ResolveRace.LinkIsUnconditional` | src/gateway/jwt_auth.py:197-223 | The link is written whatever the row holds by then, unless another row has the id |
| `ResolveRace.LostInsertReturnsWinner` | src/gateway/jwt_auth.py:237-247 | A call whose insert is refused returns the user linked to its id meanwhile, and raises without one |
| `ResolveRace.InsertCollides` | src/gateway/jwt_auth.py:225-248 | Which inserts collide, and the row of one that does not |
| `ResolveRace.OthersMove` | src/users/provider.py:120-135 | Accounts created elsewhere, balances and activations change whatever the calls are at |
| `ResolvePair.SharedEmailOverwritesLink` | src/gateway/jwt_auth.py:197-206 | In any table where two unlinked ids share an email of an unlinked row that is active or without credit, some run returns that user to both and leaves it linked to the second only |
| `ResolvePair.LinkCanBeLostIff` | src/gateway/jwt_auth.py:181-223 | Two overlapping calls can end with a returned user's link gone if and only if they are for two such ids |
| `GraphRefresh.RunKeepsInv` | src/integrations/microsoft_graph.py:280-303 | The inductive invariant over every interleaving of coroutines at their await points |
| `GraphRefresh.RefreshesNeverOverlap` | src/integrations/microsoft_graph.py:295-303 | At most one refresh per user is under way |
| `GraphRefresh.RefreshesPresentLatestToken` | src/integrations/microsoft_graph.py:228-264 | Each refresh presents the token the last successful one stored and starts only within 60 seconds of the stored expiry |
| `GraphRefresh.PresentedTokenStaleIffAnswerLost` | src/integrations/microsoft_graph.py:245-263 | The presented token is one Microsoft no longer accepts exactly if a rotated one was lost before |
| `GraphRefresh.LockIsHeldOnlyWhileRefreshing` | src/integrations/microsoft_graph.py:295-303 | A user's lock is held exactly while a refresh of that user is under way |
| `GraphRefresh.BeginWaitsIff` | src/integrations/microsoft_graph.py:286-296 | Without a row none is returned; with more than sixty seconds left the stored token is, at once; with sixty or fewer the call waits for the lock |
| `GraphRefresh.AcquireRefreshesIff` | src/integrations/microsoft_graph.py:296-303 | With the lock the row is read again: with sixty seconds or fewer left a refresh with the stored token starts, with more the stored token is returned |
| `GraphRefresh.StoreStores` | src/integrations/microsoft_graph.py:249-264 | The row after an answer: it expires expires_in seconds from then, and has the rotated refresh token if there is one |
| `GraphRefresh.FailLeavesRow` | src/integrations/microsoft_graph.py:245-247 | A refresh that fails frees the lock and leaves the row as it was |
| `GraphRefresh.AnswerRotates` | src/integrations/microsoft_graph.py:233-251 | A request is answered only for the token Microsoft accepts; a rotated one is accepted from then on, and the row is not touched yet |
| `GraphRefresh.OutOfTurnNothingHappens` | src/integrations/microsoft_graph.py:295-303 | Only a waiting call acquires the free lock, only its request is answered, and only an answer is stored |
| `GraphRefresh.ReturnedTokenIsStored` | src/integrations/microsoft_graph.py:286-303 | A call returns the token stored at that moment, with more than sixty seconds left unless it has just been refreshed, and none only without a row |
| `Ledger.Wallets.Settle` | src/gateway/routes.py:474-495 | Subtracts whatever the balance; nothing to settle is a success without a balance; a missing wallet is a failure |
| `Ledger.Wallets.PostDebit` | src/gateway/wallet_api.py:200-264 | New books and reply of a debit: repeated, settled, free, or without a wallet |
| `Ledger.Wallets.GrantCredits` | src/gateway/admin_internal_api.py:39-90 | New books and reply of a grant |
| `Ledger.Wallets.ApproveTopup` | src/oauth/routes.py:219-248 | New books and reply of an approval; the admin page's is the same |
| `Ledger.Wallets.RejectTopup` | src/oauth/routes.py:251-272 | Only a pending request is rejected |
| `Ledger.Wallets.AdminRejectTopup` | src/admin/routes.py:1840-1848 | Any request is rejected, whatever its status |
| `Ledger.Wallets.CheckoutCompleted` | src/gateway/stripe_webhook.py:108-137 | New books and reply for a completed checkout: duplicate, malformed, unknown user, or credited |
| `Ledger.Wallets.ChargeRefunded` | src/gateway/stripe_webhook.py:139-146 | A refund takes the whole top-up found, however often |
| `Ledger.Wallets.ApplySignupGrant` | src/users/provider.py:17-74 | The grant is made and marked once, and the amount is returned |
| `Ledger.ReportedBalanceIsTrueIff` | src/gateway/wallet_api.py:249-260 | A fresh debit reports the true balance exactly if it charged something or the balance is zero |
| `LedgerOutcomes.DebitOutcome` | src/gateway/wallet_api.py:217-264 | Balances, log and reply of a debit: a repeated request id answers the present balance and nothing charged |
| `LedgerOutcomes.GrantOutcome` | src/gateway/admin_internal_api.py:49-90 | Balances, log and reply of a grant, for each outcome of the identity and a repeated id |
| `LedgerOutcomes.ApprovalOutcome` | src/oauth/routes.py:224-242 | A request is credited and marked approved if and only if it is pending and its user has a row |
| `LedgerOutcomes.RejectionOutcome` | src/oauth/routes.py:256-266 | Telegram marks a pending request rejected and leaves any other; the admin page marks every stored one |
| `LedgerOutcomes.RequestOutcome` | src/portal/routes.py:1588-1595 | A request is stored as pending, without session or payment intent |
| `LedgerOutcomes.CheckoutOutcome` | src/gateway/stripe_webhook.py:108-137 | A checkout is credited and stored with its session and payment intent, an empty one as none, unless its session is stored already or payer or amount is missing |
| `LedgerOutcomes.SignupOutcome` | src/users/provider.py:17-74 | Who gets the signup grant, and its amount and mark |
| `LedgerOutcomes.ChargeOutcome` | src/gateway/routes.py:1356-1359 | A gateway call is charged unless it failed or costs nothing; an admin's credit reaches an existing user |
| `LedgerOutcomes.CreationOutcome` | src/users/provider.py:120-135 | The new account's row, unless its email is taken |
| `LedgerOutcomes.RefundOutcome` | src/gateway/stripe_webhook.py:139-146 | A refund takes the whole amount of the row found, and changes nothing without one |
| `LedgerOutcomes.RefundUndoesCheckout` | src/gateway/stripe_webhook.py:78-86 | A credited checkout is found again by the payment intent it stored, and its refund restores every balance |
| `LedgerOutcomes.NoIntentNoRefund` | src/gateway/stripe_webhook.py:66 | A checkout with an empty payment intent is never found by one |
| `LedgerOutcomes.ResolutionOutcome` | src/gateway/jwt_auth.py:170-248 | Resolving an identity changes users only |
| `LedgerRuns.EveryCallHappens` | src/gateway/admin_internal_api.py:29-35 | Every call takes place in a run, a grant with an amount and a key, and leaves its entry in the journal |
| `LedgerRuns.HandleMovesEffect` | src/gateway/stripe_webhook.py:37-46 | Each call moves each balance by exactly its declared effect |
| `LedgerRuns.BalanceIsOpeningPlusJournal` | src/users/provider.py:222-226 | Over every run each balance is its opening plus the sum of the user's journal entries |
| `LedgerRuns.TopupTakesEffectOnce` | src/admin/routes.py:1811-1837 | A request is credited at most once, an approved one has been, a pending one has not |
| `LedgerRuns.SessionTakesEffectOnce` | src/gateway/stripe_webhook.py:26-34 | A Stripe session is credited once if a row records it, and never otherwise |
| `LedgerRuns.RequestKeyTakesEffectOnce` | src/gateway/wallet_api.py:159-168 | A request id, of a debit or a grant, moves credits once if its log row shows an amount, and never otherwise |
| `LedgerRuns.SignupTakesEffectOnce` | src/users/provider.py:26-60 | The signup grant reaches a user once if the row is marked since it opened, and never otherwise |
| `LedgerRuns.EntriesAreShown` | src/gateway/stripe_webhook.py:60-75 | Every journal entry is shown, with its user and amount, by the row it is about |
| `LedgerRuns.UsedKeyDoesNothing` | src/gateway/admin_internal_api.py:53-61 | A key once used by a debit or a grant does nothing more in either |
| `LedgerRuns.StatusTellsCreditedIff` | src/admin/routes.py:1840-1848 | The status tells whether a row was credited, if and only if no settled row was rejected on the admin page |
| `LedgerRefunds.RefundsAreDeliveries` | src/gateway/stripe_webhook.py:139-146 | Over every run the journal holds one refund entry for each delivery that found the top-up, no more and no fewer, and together they take its amount that many times |
| `LedgerRefunds.RefundsAddUp` | src/gateway/stripe_webhook.py:139-146 | From any state, n deliveries of a refund event in a row take n times the top-up from the balance |
| `LedgerRuns.RunKeepsConstraints` | src/users/provider.py:120-135 | Every run keeps the unique indexes of the users table |
| `PricingAmounts.BareCallCost` | src/gateway/billing.py:268-274 | A call without time, traffic or usage has a raw cost of exactly the base plus the surcharge |
| `PricingAmounts.PartsAddUp` | src/gateway/billing.py:268-274 | Time, traffic and usage each add the same whatever the others are |
| `PricingAmounts.RawIsCost` | src/gateway/billing.py:268-274 | The pricing rates do not enter the raw cost |
| `PricingAmounts.TimeAdds` | src/gateway/billing.py:248 | A thousand milliseconds add the price of a vCPU second, any others their share, negative ones nothing |
| `PricingAmounts.TrafficAdds` | src/gateway/billing.py:249 | 1024·1024·1024 bytes add the price of a gigabyte, any others their share, negative ones nothing |
| `PricingAmounts.ReportedDollarsAdd` | src/gateway/billing.py:253-254 | Reported dollars are added as they are, negative ones as zero, whatever tokens are reported with them |
| `PricingAmounts.TokensAdd` | src/gateway/billing.py:257-266 | Uncached input, output and cached input each add their share of the price of a thousand; cached input nothing without a price |
| `PricingAmounts.ThousandTokensAdd` | src/gateway/billing.py:257-266 | A thousand tokens of one kind add exactly its price |
| `PricingAmounts.UnpricedTokensAreFree` | src/gateway/billing.py:255-257 | Tokens add nothing without a model that has a price |
| `PricingAmounts.OddCountsAdd` | src/gateway/billing.py:258-260 | More cached than input counts as all cached, negative output as none |
| `PricingAmounts.SellFactors` | src/gateway/billing.py:276-277 | The sell price is the raw cost times one plus each of the three rates |
| `PricingAmounts.BreakdownAddsUp` | src/gateway/billing.py:280-285 | The breakdown's compute and usage parts, the base and the surcharge add up to the raw cost |
| `PricingAmounts.RoundedToTenThousandths` | src/gateway/billing.py:285 | The charge is a whole number of ten-thousandths, and the even one of two equally near |
| `PricingAmounts.NoCreditPriceNoCharge` | src/gateway/billing.py:278 | Without a positive credit price nothing is charged |
| `Pricing.InputTokensSplitExactly` | src/gateway/billing.py:258-259 | Fresh and cached tokens add up to the reported input, whatever the counts |
| `Pricing.ChargeIsMonotone` | src/gateway/billing.py:247-278 | More time, bytes, input or output never lower the price or the charge |
| `Pricing.CachingNeverCostsMoreIff` | src/gateway/billing.py:258-266 | The cost of the tokens never rises when more input is served from the cache, exactly when the cached price is absent (and input is not negative) or no higher than the input price |
| `Pricing.CachingNeverRaisesTheCharge` | src/gateway/billing.py:247-285 | Then neither the sell price nor the credits charged rise with it |
| `Pricing.CachingNeverRaisesThePriceIff` | src/gateway/billing.py:247-278 | For a call priced by tokens the sell price never rises with more cached input, under exactly that condition |
| `Pricing.RoundedWithinHalfStep` | src/gateway/billing.py:285 | Rounding to four places moves the value by at most half a ten-thousandth |
| `Pricing.ChargeMatchesSellPrice` | src/gateway/billing.py:276-285 | The charge is within 0.00005 credits of the sell price over the credit price |
| `Pricing.MarginOverrideIsIgnored` | src/gateway/billing.py:121-123 | The per-MCP margin override does not enter the price |
| `Pricing.BackSolveInvertsSell` | src/admin/routes.py:2089-2101 | IVA, margin and raw cost add up to the price, and selling the raw cost gives the price back up to withholding |
| `PricingAmounts.PackageParts` | src/admin/routes.py:2089-2101 | Each part of a package: the net price with IVA is the price, and the raw cost with its margin the net price |
| `Pricing.BackSolveExactIff` | src/admin/routes.py:2093-2097 | For the rates it is passed, the back-solve inverts the sell formula exactly when nothing is withheld or the price is zero |
| `Pricing.PackagePartsAddUp` | src/admin/routes.py:2068-2101 | For the rates it is passed: in dollars or meticais the three parts, converted back, add up to the listed price, to zero without an exchange rate; other currencies show none |
| `Pricing.PageBackSolveExactIff` | src/admin/routes.py:2049-2058 | Over the stored row, whose zeros the page reads as defaults: selling the page's raw cost at the billed rates gives the price back exactly when the price is zero or the stored withholding is the one rate that makes up for those defaults |
| `Pricing.ZeroIvaBreaksTheBackSolve` | src/admin/routes.py:2055 | With IVA stored as zero the page's raw cost sells for the price over 1.16 |
| `Pricing.PagePartsAddUp` | src/admin/routes.py:2054 | On the page the exchange rate is never zero and the three parts always add up |
| `PricingAmounts.PageDefaults` | src/admin/routes.py:2049-2058 | The five values the page uses in place of a missing row or a stored zero |
| `PricingAmounts.BillingDefaults` | src/gateway/billing.py:45-51 | The five values billing uses in place of a missing row |
| `PriceTableOutcomes.RowsAreRead` | src/gateway/billing.py:59-173 | A stored row is read as it is; an empty rate name means the default |
| `PriceTableOutcomes.MissingRowsAreRead` | src/gateway/billing.py:45-56 | The numbers that count in place of each missing row |
| `PriceTableOutcomes.CallIsPricedByItsRows` | src/gateway/billing.py:243-256 | A call is priced at the rate its profile names, the pricing row and its model's price |
| `PriceTableOutcomes.LastQuoteIsStored` | src/admin/cost_model.py:185-216 | A refreshed price is a thousand times the last usable quote per token, without a cached price |
| `PriceTableOutcomes.UnquotedModelsStay` | src/admin/cost_model.py:200-203 | A model no usable quote names keeps its price, or stays without |
| `PriceTableOutcomes.LastEditIsStored` | src/admin/cost_model.py:263-285 | Of several edits of a profile the last one counts |
| `PriceTableOutcomes.UneditedProfilesStay` | src/admin/cost_model.py:263-285 | A profile without an edit stays as it is |
| `BillingCache.Billing.GetPricingConfig` | src/gateway/billing.py:59-79 | The cached lookup answers what the table says, with the fallback for a missing row |
| `BillingCache.Billing.GetComputeRate` | src/gateway/billing.py:82-101 | The same for compute rates |
| `BillingCache.Billing.GetMcpProfile` | src/gateway/billing.py:104-140 | The same for cost profiles |
| `BillingCache.Billing.GetModelPrice` | src/gateway/billing.py:143-173 | The same for model prices, with the remembered negative answer |
| `BillingCache.Billing.ComputeCost` | src/gateway/billing.py:233-289 | The cached computation returns what it would reading the tables directly, at every clock reading |
| `BillingCache.Billing.GetMinBalanceToCall` | src/gateway/billing.py:292-293 | The minimum balance the tables hold |
| `BillingCache.Billing.InvalidateCaches` | src/gateway/billing.py:296-301 | All four caches are empty |
| `BillingCache.Billing.SavePricing` | src/admin/cost_model.py:83-93 | The singleton row changes if there is one, and the caches stay coherent |
| `BillingCache.Billing.SaveRate` | src/admin/cost_model.py:106-115 | The rate is stored, and the caches stay coherent |
| `BillingCache.Billing.ModelsUpsert` | src/admin/cost_model.py:144-160 | The price is stored, and a remembered negative answer is forgotten |
| `BillingCache.Billing.ModelsDelete` | src/admin/cost_model.py:163-172 | The price is gone, and the caches stay coherent |
| `BillingCache.Billing.ModelsRefresh` | src/admin/cost_model.py:185-216 | All usable quotes are stored in order; a failed fetch changes nothing |
| `BillingCache.Billing.ProfilesSave` | src/admin/cost_model.py:263-285 | All edited profiles are stored, and the caches stay coherent |
| `PriceRace.RunKeepsInv` | src/gateway/billing.py:59-173 | Every interleaving of the calls of lookups with writes and invalidations keeps the invariant: each value about to be set, cached or answered was selected from some contents of the tables |
| `PriceRace.GetDecides` | src/cache.py:30-38 | The get of a lookup answers an unexpired entry, and otherwise drops it and goes on to the select |
| `PriceRace.OthersMove` | src/gateway/billing.py:296-301 | Writes and invalidations, each with its effect, happen whatever the lookups are at |
| `PriceRace.AnswerWasRead` | src/gateway/billing.py:59-79 | Every answer is what the tables held at the moment of some select, and the set after that select was made by the answering call or less than the time to live before |
| `PriceRace.MissedWriteIsRecent` | src/gateway/billing.py:20-21 | An answer misses a write by less than the time to live plus the time one lookup took from its select, made before the write, to its set |
| `PriceRace.OutdatedIffSetLate` | src/gateway/billing.py:296-301 | Once every write handler has cleared the caches, an entry is outdated if and only if a write fell between the select and the set of the lookup that stored it; an entry that is not says what the tables say |
| `PriceRace.ApartWritesStayCoherent` | src/admin/cost_model.py:83-93 | Where no write falls between a lookup's select and its set, the cache agrees with the tables whenever no write handler is at work |
| `PriceRace.UndisturbedLookup` | src/gateway/billing.py:59-79 | Without interleaving a lookup answers from the cache, or else what the tables say, and stores that |
| `PriceRace.LateSetLeavesOldValue` | src/gateway/wallet_api.py:199-237 | For any tables, key and edit: a run after which the write handler is done and the cache holds the old value |
| `ExceptionWalk.Walk` | src/gateway/upstream.py:149-166 | Terminates on every finite graph, cyclic ones included, and yields exactly the reachable exceptions, each once, the start first |
| `ExceptionWalk.ExtractTimeoutFromGroup` | src/gateway/upstream.py:240-261 | None exactly when no timeout is reachable; otherwise a reachable TimeoutError itself, or a new one wrapping a reachable httpx timeout; a timeout at the top is found first |
| `ExceptionWalk.IsSessionTerminated` | src/gateway/upstream.py:169-185 | True exactly when some reachable exception says the session is gone or is a 404 |
| `ExceptionWalk.HasStatus` | src/gateway/upstream.py:196-198 | True exactly when some reachable exception carries the status |
| `ExceptionWalk.IsAuthError` | src/gateway/upstream.py:203-216 | True exactly for a reachable 401 or the phrase at the top |
| `ExceptionWalk.IsMisdirected` | src/gateway/upstream.py:188-200 | True exactly for a reachable 421 or the phrase at the top |
| `ExceptionWalk.IsTimeoutError` | src/gateway/upstream.py:219-237 | Where the check returns, it is true exactly for a timeout or cancellation at the top or a timeout below it on the chain |
| `ExceptionWalk.ChainCheckHaltsIff` | src/gateway/upstream.py:232-237 | The check returns at all exactly when it stops at the top, meets a timeout, or the chain is acyclic |
| `ExceptionWalk.WalkFindsChainTimeouts` | src/gateway/upstream.py:219-261 | A timeout the chain check finds is reachable for the walk |
| `TimeoutAgreement.ChainCoversIff` | src/gateway/upstream.py:219-261 | For every graph: whatever its exceptions are, the check misses no timeout the walk finds, if and only if every reachable exception lies on the chain |
| `TimeoutAgreement.ChainCoversIffClosed` | src/gateway/upstream.py:149-166 | That is the case exactly when no exception on the chain has a member, a cause or a context off it |
| `TimeoutAgreement.OffChainTimeoutIsMissed` | src/gateway/upstream.py:232-237 | A timeout at any reachable place off the chain, with no other timeout or cancellation, is found by the walk and missed by the check, which returns exactly if the chain is acyclic |
| `TimeoutAgreement.CheckAgreesWithWalk` | src/gateway/upstream.py:219-261 | The check says True exactly for a cancellation at the top or a timeout that the walk finds and that lies on the chain; where the chain covers everything, only a cancellation tells the two apart |
| `TimeoutAgreement.WalkFollows` | src/gateway/upstream.py:159-166 | The walk goes from an exception to group members, cause and context, and nowhere else |
| `TimeoutAgreement.ChainFollows` | src/gateway/upstream.py:232-236 | The chain goes to the cause, to the context where there is no cause, and ends without either |
| `TimeoutAgreement.DirectTimeoutIsSeen` | src/gateway/upstream.py:232-236 | A timeout of either class that is the cause of the top, or its context where it has no cause, is seen |
| `TimeoutAgreement.GroupHidesTimeoutFromChain` | src/gateway/upstream.py:159-160 | A two-node witness: the timeout is a member of a group |
| `TimeoutAgreement.CauseHidesContextFromChain` | src/gateway/upstream.py:232-236 | A three-node witness without a group: the timeout is the context of an exception that has a cause |
| `CandidateUrls.Candidates` | src/gateway/upstream.py:295-328 | The duplicate-free list of the registered URL and its alternates, at most five, the registered one first |
| `CandidateUrls.PlainUrlProbes` | src/gateway/upstream.py:319-321 | A URL without a suffix probes /mcp/, /mcp, /sse/ and /sse below itself, in that order |
| `CandidateUrls.SuffixedUrlProbes` | src/gateway/upstream.py:313-318 | A URL under /mcp or /sse probes that suffix with and without a slash; an /mcp below /sse is dropped |
| `CandidateUrls.SuffixedUrlCandidates` | src/gateway/upstream.py:322-328 | The whole list for such a URL: itself, then the same with or without the slash |
| `CandidateUrls.CandidatesKeepProbeOrder` | src/gateway/upstream.py:322-328 | Of two candidates the one probed first comes first |
| `CandidateUrls.SingleTransport` | src/gateway/upstream.py:302-318 | A URL registered as /mcp or /sse has at most three candidates, all of its own transport |
| `CandidateUrls.ProbeShapes` | src/gateway/upstream.py:313-318 | Every probe for such a URL is its suffix after one stem |
| `RetryEngine.DoUpstreamCall` | src/gateway/upstream.py:375-410 | One round in which no attempt made is stuck in its classification: which candidates are tried, in which order, why it stops, and the time spent |
| `RetryEngine.CallUpstreamTool` | src/gateway/upstream.py:462-514 | A whole call that ends: at most two rounds, when the second is made, the result, and the time spent |
| `RetryEngine.RoundEndsIff` | src/gateway/upstream.py:385-410 | A round stops somewhere if and only if no attempt it makes is stuck |
| `RetryEngine.CallEndsIff` | src/gateway/upstream.py:462-514 | A call has an outcome if and only if no attempt it makes is stuck, in the first round or in the second if there is one |
| `RetryEngine.StuckIff` | src/gateway/upstream.py:393-400 | An attempt is stuck exactly when its fault is no authorisation failure and its chain is cyclic without a timeout |
| `RetryEngine.TimeoutRetriedIff` | src/gateway/upstream.py:396-408 | A fault in which the walk finds a timeout, and that is no authorisation, session or 421 fault, is passed over and repeated exactly when the chain check can see the timeout |
| `RetryEngine.HiddenTimeoutEndsTheCall` | src/gateway/upstream.py:488-510 | Otherwise the first-round attempt that raises it is the last of the call: no further candidate, no second round, and the fault is reraised |
| `RetryOutcomes.AttemptOutcome` | src/gateway/upstream.py:345-360 | An attempt within its two budgets ends as the upstream ends it; a blown one cuts it off there; and the time it takes |
| `RetryOutcomes.PassedOverIff` | src/gateway/upstream.py:393-408 | The next candidate is tried exactly after a fault without a 401 that is a timeout on the chain, or a 404, a gone session or a 421 on an acyclic chain |
| `RetryOutcomes.RepeatableIff` | src/gateway/upstream.py:492-503 | A round is repeated exactly after a timeout on the chain or a 421, without a 404, a gone session or a 401 |
| `RetryOutcomes.ResultOfCall` | src/gateway/upstream.py:470-510 | The caller gets the reply, the session error for a 404 or a gone session, else the token error for a 401, else the fault |
| `RetryOutcomes.SecondRoundIff` | src/gateway/upstream.py:492-503 | When there is a second round |
| `RetryOutcomes.RoundStopsIff` | src/gateway/upstream.py:393-410 | A round that stops early stopped at a reply, at a 401, or at a fault of no kind that is passed over |
| `RetryEngine.OnlyTransientFaultsBeforeTheLast` | src/gateway/upstream.py:393-408 | Only transient faults come before the last attempt; a success is the first reply; nothing follows an authorisation failure |
| `RetryEngine.TraceIsUnique` | src/gateway/upstream.py:463-510 | A script of upstream outcomes determines the attempts and the result |
| `RetryEngine.RoundWithinBudget` | src/gateway/upstream.py:345-360 | A round spends at most the budgets of the candidates it tried |
| `RetryEngine.RoundBudgetClosedForm` | src/gateway/upstream.py:387-390 | The budget of a round: handshake and call for the registered URL, two list budgets for each probe |
| `RetryEngine.CallWithinBudget` | src/gateway/upstream.py:463-503 | A call spends at most two rounds of budgets and one pause |
| `RetryEngine.DefaultCallWithin513Seconds` | src/gateway/upstream.py:27-32 | With the default settings no call spends more than 513 seconds in its budgets |
| `RetryOutcomes.LongestCallTakes513Seconds` | src/gateway/upstream.py:27-32 | With five candidates some call does take all of the 513 seconds |

## Left out

- Interleaved refresh rotation, top-up approval, credit updates, debits and webhook crediting: each reads and writes in separate calls and is modelled as one step.
- Price lookups whose table read fails and falls back; writes that fail between the steps of a ledger handler; usage-log rows without a request id; deleting a user.
- TokenFamilies.RunKeepsInv: runs start without token rows, so a stored refresh token always names its access token; rows imported from elsewhere may not.
- LedgerRuns.BalanceIsOpeningPlusJournal: runs start from any users but without top-up and log rows; so do the other theorems of LedgerRuns and LedgerRefunds, except RefundsAddUp.
- TokenCache.AnswerIsUnderAMinuteOld: the tables and the cache read one clock, once in each call.
- ResolveRace.InterleavedCallsAgree: speaks of runs in which calls for two ids with one email do not overlap; LinkCanBeLostIff gives the exact condition for two calls that do, not for more than two.
- ExceptionWalk.IsTimeoutError: requires that the check returns at all; ChainCheckHaltsIff says exactly when it does, as CallEndsIff does for RetryEngine.CallUpstreamTool.
- The fail-open precheck and settlements without a precheck are in the model of Overdraft; there the bound grows by one charge, or by the amount, for each.
- `update_email`, social sign-in and account deletion beside `resolve_or_create_user`; trimming and lowercasing of emails, names and text fields is taken as done.
- Relinking and disconnecting a Microsoft account; the order in which an asyncio lock wakes its waiters.
- Which of several entries equally close to expiry a full cache evicts, and sharing of cached objects between callers.
- Connection set-up outside the time budgets, and which leaf of an exception group is finally raised.
- A plain resource value that happens to be JSON text, and the Telegram message id in a pending session.
- `parse_usage_meta`, whose tolerant parsing has no property beyond its own cases; rounding errors of floating point.
- Client authentication and the active-client test of the token endpoint, cookies, templates, e-mail, Telegram, Sentry, and the catalogue, category, testimonial and settings pages.
- The deprecated balances on `oauth_clients` and the flat cost per call.
