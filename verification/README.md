# Geata, verified

Geata is a reverse proxy that can charge for requests: over Lightning (x402 and
L402 proofs that consume one row per payment hash), with Cashu tokens, or not at
all within a free allowance. This project models the parts of it whose
correctness depends on more than one function at a time and proves what they
are for. Durable, concurrent protocols are state machines: a run is any sequence
of events, and an event is one step between two awaits, a write that commits or
fails with the old or the new content on disk, a cancellation, or a crash.
Structures that the program updates in place are classes, and loops are loops;
each is proved to compute a function, and the theorems are about that function.

| file | what it models |
|---|---|
| `L402.dfy` | the caveat and HMAC chain of L402 credentials, minting and attenuation |
| `Settlement.dfy` | the Lightning journal: ROOTS, SPENT, claims, pruning, restarts |
| `CashuLedger.dfy` | reserve, redeem, claim and recovery of Cashu tokens |
| `Payout.dfy` | the durable guard around operator payouts |
| `Deposits.dfy`, `Rotation.dfy` | retirement of mint deposits, and the rotating cursor of its passes |
| `RateLimit.dfy` | token buckets in bounded, swept shards |
| `Capacity.dfy` | concurrency permits and the issuance permits built on them |
| `Scheduler.dfy` | certificate orders: worker slots, back-off, cooldown |
| `Basics.dfy`, `DecimalText.dfy`, `Json.dfy`, `Tokenizer.dfy`, `Directives.dfy`, `SiteText.dfy` | the Geatafile: tokens, directives, and printing a site back |
| `Identity.dfy` | token ids and request hashes |
| `Admission.dfy`, `Metering.dfy`, `Provenance.dfy`, `Service.dfy` | the order of decisions for one request, over all of the above, and reloads: what a request consumes, what that rests on, and what an undisturbed one gets |

`dafny verify dfyconfig.toml` checks everything.

Assumptions, each stated where it is used: the clock does not run backwards
(wall clock in the journals, monotonic clock in the limiters); write
transactions of one store are serialized; a payment hash determines the creation
time and the expiry of its invoice; a mint spends each proof at most once and
answers honestly, and nobody pays an invoice after its grace; SHA-256 and HMAC
are arbitrary functions, and no two of the texts named in a theorem collide
where it says so.

Results that a reader of the code might not expect:

- An attenuated L402 credential can be accepted although the credential it was
  derived from is not: `L402.IncompleteOriginal`. It happens only if the original
  lacks one of the four required caveats, which a minted one never does
  (`L402.AttenuationOnlyRestricts` is an equivalence).
- The order of directives can change what a site does: a quoted keyword after
  `lightning_headers` is taken for a header name, and if the names happen to be
  sorted the block is accepted with another meaning
  (`SiteText.QuotedKeywordChangesTheSite`). After `lightning_protocols` or a
  one-argument `respond` it is always refused (`Directives.OtherSwallowsAreRefused`).
  An accepted block means the same in every order exactly when no such pair exists
  (`Directives.OrderMattersExactlyWhenSwallowed`).
- A deposit association can outlive its quote and then keeps its challenge slot:
  `Deposits.StaleSnapshotOrphans`. `Deposits.OrphanedExactlyWhen` names the only
  two steps that do this, `Deposits.OrphanForGoodExactlyWhen` says exactly when it
  is for good, and `Deposits.NoOrphanWhenPrompt` shows that callers within their
  time limits never take those steps.
- The limit of 10000 outstanding challenges can be passed: a cancelled cleanup pass
  may journal a retirement after the row is gone and its slot is taken
  (`Settlement.LimitIsPassed`, `Settlement.LimitPassedExactlyWhen`). Only rows
  brought back this way are in excess (`Settlement.OutstandingChallengesBounded`).
- The shared retention deadline is necessary: with two expiries for one payment
  hash a prune lets the payment in twice (`Settlement.TwoDeadlinesAdmitTwice`).

## Model

| member | source | states |
|---|---|---|
| `Settlement.Journal.ClaimKey` | crates/geata/src/payments/lightning/mod.rs:654-683 | one claim transaction: refused when the retention deadline has passed or the key is there, otherwise the row is written; nothing else changes |
| `Settlement.SettlePayment` | crates/geata/src/payments/lightning/mod.rs:640-683 | an undisturbed x402 settlement admits exactly a genuine payment in its window whose hash is unspent before retention ends, and then spends it; each other case has its answer and changes nothing; rows and answer are those of the protocol's steps |
| `Settlement.SettleCredential` | crates/geata/src/payments/lightning/l402.rs:194-241 | an undisturbed L402 settlement admits exactly a well-formed credential that its stored root authorizes, whose deposit a receiving mint pays out and whose hash is unspent before retention ends; rows and answer are those of the protocol's steps |
| `Settlement.Journal.Prune` | crates/geata/src/payments/lightning/maintenance.rs:4-9 | exactly the rows and roots whose deadline has passed go, the others stay as they are |
| `Settlement.Journal.MintRoot` | crates/geata/src/payments/lightning/l402.rs:171-192 | a root is stored iff a challenge slot is free and the identifier is new |
| `Settlement.Journal.InsertQuote` | crates/geata/src/payments/lightning/cashu.rs:55-80 | an association is stored iff a challenge slot is free and the key is new |
| `Settlement.Claim` | crates/geata/src/payments/lightning/mod.rs:657-676 | a successful claim is of an absent key, whose row outlives the claim; any other leaves the tables as they were |
| `Settlement.SameRetention` | crates/geata/src/payments/lightning/l402.rs:237-240 | L402 and x402 compute one retention deadline, saturation included |
| `Settlement.SameLastInstant` | crates/geata/src/payments/lightning/mod.rs:450-504 | both protocols stop accepting at the same instant, an hour before retention ends |
| `Settlement.ClaimVerdictsAgree` | crates/geata/src/payments/lightning/mod.rs:657-671 | the re-check inside the claim replaces a pruned row: both journals give one verdict |
| `Settlement.TimedStep` | crates/geata/src/payments/lightning/mod.rs:506-541 | every stored and pending deadline stays the one its payment hash determines |
| `Settlement.PruningIsInvisible` | crates/geata/src/payments/lightning/maintenance.rs:4-9 | every run gets, answer by answer, the outcomes of a journal that never deletes |
| `Settlement.AdmittedAtMostOnce` | crates/geata/src/payments/lightning/mod.rs:640-683 | over every interleaving of both protocols, stalls, cancellations, failed writes, prunes and restarts, a payment hash is admitted at most once |
| `Settlement.AdmittedWasProved` | crates/geata/src/payments/lightning/l402.rs:194-241 | over every run, an admission answers one settlement that proved its payment before: a genuine payment in its window, or a credential authorized, when it was verified, by the stored root that this settlement had read; and the key was unspent when its claim was committed |
| `Settlement.TwoDeadlinesAdmitTwice` | crates/geata/src/payments/lightning/mod.rs:640-652 | a run that admits twice when one hash has two expiries |
| `Settlement.OutstandingChallengesBounded` | crates/geata/src/payments/lightning/maintenance.rs:11-22 | over every run, roots and associations are at most 10000 but for the associations present that a late retirement brought back |
| `Settlement.LimitPassedExactlyWhen` | crates/geata/src/payments/lightning/cashu.rs:154-172 | a step passes the limit if and only if it journals the retirement of a row that is gone, on full tables |
| `Settlement.LimitIsPassed` | crates/geata/src/payments/lightning/cashu.rs:154-172 | a run that ends with 10001 records |
| `L402.Verify` | crates/geata/src/payments/lightning/l402.rs:65-128 | accepts exactly the credentials with only allowed, narrowing, complete caveats, the right chain and an unexpired deadline |
| `L402.WalkCaveats` | crates/geata/src/payments/lightning/l402.rs:82-114 | the loop over the caveats sums up chain, deadline and restrictions met, or stops at a caveat that rules the credential out |
| `L402.Classify` | crates/geata/src/payments/lightning/l402.rs:88-111 | which caveat a text is, and exactly when it is refused |
| `L402.ParseExpiry` | crates/geata/src/payments/lightning/l402.rs:94-99 | the value of a non-empty all-digit u64, and nothing else |
| `L402.MintedAuthorizesExactly` | crates/geata/src/payments/lightning/l402.rs:131-171 | a minted credential is accepted for its own request and terms before its deadline, and for nothing else |
| `L402.MintedNeedsItsPreimage` | crates/geata/src/payments/lightning/l402.rs:39-63 | an issued credential, with or without a preimage caveat, is presentable and accepted exactly with the preimage of the payment hash in its identifier (and of its caveat), for its own request and terms, before its deadline, if these two preimages do not collide |
| `L402.PreimageCaveatBinds` | crates/geata/src/payments/lightning/l402.rs:106-110 | adding a preimage caveat to any genuine credential keeps it for that preimage, in either case of its letters, and refuses every other |
| `L402.AttenuationOnlyRestricts` | crates/geata/src/payments/lightning/l402.rs:65-128 | a chained attenuation that is accepted implies that the original is, if and only if the original is complete |
| `L402.MintedAttenuationOnlyRestricts` | crates/geata/src/payments/lightning/l402.rs:131-171 | no attenuation of an issued credential is accepted where the issued one is not |
| `L402.IncompleteOriginal` | crates/geata/src/payments/lightning/l402.rs:115-118 | an accepted attenuation of a refused, incomplete credential |
| `L402.AddedExpiryShrinksWindow` | crates/geata/src/payments/lightning/l402.rs:94-103 | an added expiry is accepted exactly inside the old window and before itself, if it does not exceed the old deadline |
| `L402.NeverBecomesValid` | crates/geata/src/payments/lightning/l402.rs:74 | a credential accepted at some time was accepted at every earlier one |
| `L402.DeadlineOnlyNarrows` | crates/geata/src/payments/lightning/l402.rs:99-103 | the deadline in force only falls along the caveats |
| `CashuLedger.Ledger.ReserveToken` | crates/geata/src/payments/ledger.rs:87-114 | one reservation transaction and its four results |
| `CashuLedger.Ledger.ClaimToken` | crates/geata/src/payments/ledger.rs:118-140 | one claim transaction: true exactly when an unclaimed row becomes claimed |
| `CashuLedger.CollectToken` | crates/geata/src/payments/mod.rs:145-226 | an undisturbed collection, on the ledger's own transactions, admits exactly a token that covers the price, whose row is absent or this site's and unclaimed, and whose funds are here or are redeemed now; rows and verdict are those of the protocol's steps |
| `CashuLedger.FindFunds` | crates/geata/src/payments/mod.rs:190-204 | the search finds a completed transaction for this token and price iff there is one |
| `CashuLedger.UndisturbedAdmitsExactlyWhen` | crates/geata/src/payments/mod.rs:145-226 | from every state with a free lock, exactly when the undisturbed steps admit the token, and which row they leave in every case |
| `CashuLedger.RedeemedTokenIsAdmitted` | crates/geata/src/payments/mod.rs:206-226 | in every reachable state, the first use of a token, or a retry of an unredeemed one, is admitted at its site and price once its unspent proofs are redeemed |
| `CashuLedger.Reserve` | crates/geata/src/payments/ledger.rs:94-110 | which of the four results, by the row that is there; only New writes, the row of this site and price, unclaimed |
| `CashuLedger.Claim` | crates/geata/src/payments/ledger.rs:124-136 | a claim succeeds exactly from an unclaimed row and changes only its mark |
| `CashuLedger.RowsPersist` | crates/geata/src/payments/ledger.rs:87-140 | rows keep the site and price of their first reservation, and claims are final |
| `CashuLedger.AdmittedOnceAsReserved` | crates/geata/src/payments/mod.rs:145-226 | a token id is admitted at most once, at the site and price first reserved, over every run with crashes and cancellations |
| `CashuLedger.ReceivedCoversAdmissions` | crates/geata/src/payments/mod.rs:178-226 | completed incoming value is at least the sum of the prices admitted |
| `CashuLedger.AdmittedTokensShareNoProof` | crates/geata/src/payments/mod.rs:145-226 | two admitted tokens have no proof in common |
| `CashuLedger.RetryAdmits` | crates/geata/src/payments/mod.rs:178-205 | retrying a token whose redemption completed before a crash admits it without redeeming again |
| `Payout.OneUnresolvedPayoutGuarded` | crates/geata/src/payments/payout.rs:308-348 | at most one payout is unresolved, and the durable guard names it |
| `Payout.NothingPreparedWhileUnresolved` | crates/geata/src/payments/payout.rs:195-237 | while one is unresolved no step prepares another, and only recovery or its own completion resolves it |
| `Payout.DebitsAuthorized` | crates/geata/src/payments/payout.rs:195-348 | every confirmed debit is within max_total of a command of the run, or within amount plus max_fee of a policy that was due in it by the durable record |
| `Payout.EachAuthorizationOnce` | crates/geata/src/payments/payout.rs:195-260 | two operations never rest on one command or one due pass |
| `Payout.DebitsWithinGrants` | crates/geata/src/payments/payout.rs:308-348 | everything debited in a run is at most the sum of what its commands and due passes authorized |
| `Payout.AutomaticOnlyWhenDue` | crates/geata/src/payments/payout.rs:82-90 | an automatic payout starts only from a durable record that is due: nothing pending, cooldown over, amount covered, threshold or interval reached |
| `Payout.RecordedPayoutsAreDated` | crates/geata/src/payments/payout.rs:343-345 | over every run, whenever a payout is recorded, a pause ends or automatic payouts are first observed, the record takes the clock, and its date never goes back |
| `Payout.IntervalBetweenPayouts` | crates/geata/src/payments/payout.rs:82-90 | under a policy with an interval alone, an automatic payout starts at least the interval after every payout recorded, every pause ended and the first observation before it |
| `Payout.DuePayoutIsSent` | crates/geata/src/payments/payout.rs:195-237 | a due payout that nothing disturbs is sent once and leaves exactly this record: dated now, cooling for 60 seconds, nothing pending |
| `Payout.OrderedPayoutIsSent` | crates/geata/src/payments/payout.rs:239-259 | a payout the operator orders likewise, with the cooldown as it was |
| `Payout.PauseEndsExactlyWhen` | crates/geata/src/payments/payout.rs:280-293 | the command ends a pause exactly if the paused operation is over, and then dates the record and cools for 60 seconds |
| `Payout.AttemptsSpaced` | crates/geata/src/payments/payout.rs:216-232 | automatic attempts start at least 60 seconds apart, however earlier ones ended |
| `Payout.PauseOutlivesCommand` | crates/geata/src/payments/payout.rs:262-304 | without recovery the command changes nothing |
| `Deposits.DeletedOnlyWhenSettled` | crates/geata/src/payments/minting.rs:91-137 | a deleted quote has its funds in a completed transaction, or is unpaid for good after its grace |
| `Deposits.PaidFundsAreRecoverable` | crates/geata/src/payments/minting.rs:166-197 | a paid quote is minted or can still be |
| `Deposits.RetiredForGood` | crates/geata/src/payments/lightning/cashu.rs:150-170 | a journaled retirement is never taken back |
| `Deposits.RetirementResumes` | crates/geata/src/payments/lightning/cashu.rs:136-194 | after any crash or cancellation, one undisturbed visit removes a retired association and its quote and nothing else |
| `Deposits.VisitRetiresExactlyWhen` | crates/geata/src/payments/lightning/cashu.rs:136-194 | an undisturbed visit removes an association and its quote exactly if its retention is over and it is retired or nothing is owed any more; otherwise it changes nothing |
| `Deposits.RecoveryDeletesExactlyWhen` | crates/geata/src/payments/minting.rs:166-184 | the recovery pass deletes exactly the quotes that its list lacks and that are unpaid for good |
| `Deposits.QuotesOutliveInvoices` | crates/geata/src/payments/lightning/cashu.rs:43-53 | over every run, an invoice is associated only with a quote that outlives it, and only if it ends within a day |
| `Deposits.StaleSnapshotOrphans` | crates/geata/src/payments/minting.rs:170-193 | a run in which an association outlives its quote |
| `Deposits.OrphanForGoodExactlyWhen` | crates/geata/src/payments/minting.rs:91-118 | such an association stays over every continuation of a run if and only if no retirement decided before is still on its way to the journal |
| `Deposits.OrphanedExactlyWhen` | crates/geata/src/payments/lightning/cashu.rs:196-240 | the two steps that create one, as an equivalence |
| `Deposits.NoOrphanWhenPrompt` | crates/geata/src/payments/lightning/cashu.rs:196-240 | none exists when quotes are associated before their invoice ends and recovery deletes within the grace of its list |
| `Rotation.VisitOrder` | crates/geata/src/payments/lightning/cashu.rs:125-134 | the rotated order of one pass |
| `Rotation.OrderFollowsSuccessors` | crates/geata/src/payments/lightning/cashu.rs:125-134 | a pass visits cyclic successors, starting with that of the cursor |
| `Rotation.OrderHasAllKeys` | crates/geata/src/payments/minting.rs:154-168 | a pass considers every key and no other |
| `Rotation.NobodyStarvesByVisits` | crates/geata/src/payments/minting.rs:154-168 | n visits in passes of any length reach every remaining key |
| `Rotation.NobodyStarvesByPasses` | crates/geata/src/payments/lightning/cashu.rs:125-134 | ceil(n/32) full passes reach every remaining key |
| `RateLimit.IdentitiesSharedByPrefix` | crates/geata/src/rate_limit.rs:82-92 | two addresses are one client exactly when they agree on the canonical form and the prefix |
| `RateLimit.MappedAddressIsTheSameClient` | crates/geata/src/rate_limit.rs:82-92 | an IPv4 client and its mapped IPv6 form share one identity under every prefix, and nothing else shares it |
| `RateLimit.RefillFits` | crates/geata/src/rate_limit.rs:126-129 | no refill step exceeds u128, for any Duration and any u32 limit |
| `RateLimit.WaitFits` | crates/geata/src/rate_limit.rs:115-121 | the wait is positive and fits u64 |
| `RateLimit.WaitIsExact` | crates/geata/src/rate_limit.rs:115-121 | the rounded-up wait is the first instant with a whole token |
| `RateLimit.ShardTable.CheckClient` | crates/geata/src/rate_limit.rs:95-123 | sweep, full-table refusal, lazy creation and draw of one shard |
| `RateLimit.RateLimiter.CheckAddress` | crates/geata/src/rate_limit.rs:63-80 | a check touches only the shard of the client's key and is one step of the limiter |
| `RateLimit.CheckRefines` | crates/geata/src/rate_limit.rs:95-123 | one check of a shard answers as the ideal bucket of the client does |
| `RateLimit.StepRefines` | crates/geata/src/rate_limit.rs:67-80 | one step of the sharded table is one step of the never-evicting ideal; a full-table refusal leaves it alone |
| `RateLimit.LimiterRefinesIdeal` | crates/geata/src/rate_limit.rs:63-123 | over every run, reloads included, the answers are those of the ideal limiter |
| `RateLimit.AcceptedExactlyWithCredit` | crates/geata/src/rate_limit.rs:95-123 | a client is let through exactly with a whole token of its own credit and room in its shard |
| `RateLimit.FullTableIsFull` | crates/geata/src/rate_limit.rs:95-108 | over every run no shard holds more than 1024 clients, and a client is turned away for lack of room only while its shard holds 1024 others, none idle and refilled if a sweep was due |
| `RateLimit.WindowBound` | crates/geata/src/rate_limit.rs:95-123 | accepted × 10^9 ≤ burst × 10^9 + elapsed ns × rate, for every client and window, across unchanged reloads |
| `RateLimit.RefusalWaitIsExact` | crates/geata/src/rate_limit.rs:113-121 | after a refusal every earlier check of the client fails and one at the end of the wait succeeds, whatever other clients do and through reloads that keep limit and prefix |
| `Capacity.CapacityPool.Acquire` | crates/geata/src/config.rs:96-111 | a permit is given iff the client is below its share and one is free |
| `Capacity.CapacityPool.DropClientSlot` | crates/geata/src/config.rs:113-127 | the client's count falls by one and no zero entry stays |
| `Capacity.BorrowPermit` | crates/geata/src/config.rs:96-127 | a permit taken and dropped leaves the pool as it was |
| `Capacity.SitePermitsBounded` | crates/geata/src/config.rs:83-127 | live permits never exceed max, nor half of it per client, and the map counts exactly those not being dropped |
| `Capacity.RefusalIsJustified` | crates/geata/src/config.rs:83-111 | a refusal happens exactly at the client's share, half of the maximum or one, or with no permit left |
| `Issuance.OnePoolPerReceiver` | crates/geata/src/payments/lightning/issuance.rs:33-70 | all live permits of a receiver share one pool, although weak entries die and are recreated |
| `Issuance.ReceiverPermitsBounded` | crates/geata/src/payments/lightning/issuance.rs:33-70 | at most 8 permits per receiver and 2 per client there |
| `Issuance.GlobalPermitsBounded` | crates/geata/src/payments/lightning/issuance.rs:15-70 | at most 64 issuance permits in all and 8 per client |
| `Issuance.PermitGivenExactlyWhen` | crates/geata/src/payments/lightning/issuance.rs:33-70 | over every run, a request for an invoice gets its permit if and only if fewer than 64 are held in all, 8 by the client, 8 for the receiver and 2 there by the client |
| `Retry.RetryRecord.BeginAt` | crates/geata/src/retry.rs:23-28 | an attempt is counted and its timeout covered before it starts |
| `Retry.FailureSchedulesWithinADay` | crates/geata/src/retry.rs:30-38 | a failure schedules 5 to 86400 seconds ahead, barring saturation |
| `Retry.BeginCoversTimeout` | crates/geata/src/retry.rs:23-28 | a begun attempt is not ready again before its timeout |
| `Retry.BackOffGrows` | crates/geata/src/retry.rs:31-34 | back-off never shrinks with more failures |
| `Retry.BackOffDoubles` | crates/geata/src/retry.rs:31 | back-off starts at 30 seconds and doubles up to a day |
| `Retry.FailureBacksOff` | crates/geata/src/retry.rs:30-38 | the wait is the back-off plus at most a fifth of it, cut to a third of the certificate's remaining life but not below 5 seconds |
| `Retry.RetryDeadlineHonoured` | crates/geata/src/acme_http.rs:111-133 | for which answers there is a deadline, and which one: what the CA asked for, a minute for a bare 429, never in the past (RFC 9110 section 10.2.3, RFC 8555 section 6.6) |
| `Scheduler.WorkerSet.Remove` | crates/geata/src/automation.rs:396-404 | finds the domain that owns a job, if one does, and forgets only it |
| `Scheduler.ScheduleDomain` | crates/geata/src/automation.rs:345-368 | one domain of a pass: an order starts exactly when the domain is configured and ready and a slot is free, its attempt counted before the spawn |
| `Scheduler.SlotsBounded` | crates/geata/src/automation.rs:176-231 | active ≤ jobs ≤ 4, distinct jobs, no domain both active and waiting to be saved |
| `Scheduler.StaleJobsAreNotAttributed` | crates/geata/src/automation.rs:270-293 | a finished job counts only for the domain it was spawned for, and only as its newest worker |
| `Scheduler.EndedOrderIsRecorded` | crates/geata/src/automation.rs:179-206 | in every reachable state, an order that ends for its domain frees the slot; after a success the certificate waits to be saved and no retry changes, after a failure nothing waits and the next try is 5 to 86400 seconds ahead |
| `Scheduler.PendingWasIssued` | crates/geata/src/automation.rs:185 | over every run, a certificate waiting to be saved comes from an order for its domain that ended with success, and none has started for it since |
| `Scheduler.IssuedIsKept` | crates/geata/src/automation.rs:213-268 | a waiting certificate goes exactly when it is installed, no longer valid, its site is gone or the process stops, and a saving pass forgets the retries of exactly the installed ones |
| `Scheduler.FailedOrderWaits` | crates/geata/src/automation.rs:186-206 | after a failed order the next one for its domain starts no earlier than the time scheduled, across restarts too if that record reached the disk |
| `Scheduler.PassBeginsExactlyWhen` | crates/geata/src/automation.rs:270-305 | orders may start exactly after the cooldown is found over, a slot is free and both records are written |
| `Scheduler.OrderStartsExactlyWhen` | crates/geata/src/automation.rs:276-368 | when an order starts, and that its attempt is then counted and on disk |
| `Scheduler.DiskCoversActiveOrders` | crates/geata/src/automation.rs:345-368 | the record on disk keeps a second order away for 180 seconds, under any write failures |
| `Scheduler.NoEarlySecondOrder` | crates/geata/src/automation.rs:247-275 | no crash or reconfiguration starts one sooner |
| `Scheduler.OrdersRespectCooldown` | crates/geata/src/automation.rs:183-203 | orders start only in a pass that found the durable cooldown over |
| `Scheduler.NoOrderBeforeDeadline` | crates/geata/src/acme_http.rs:32-45 | once the CA asked for a wait, no pass that begins afterwards starts an order before it is over, while the process lives, and across restarts too if the wait reached the disk |
| `Json.UnescapeEscape` | crates/geata/src/config.rs:661-684 | reading a written JSON string gives the text back |
| `Json.ReadsExactlySpellings` | crates/geata/src/config.rs:678-684 | a literal is read as a text if and only if it spells it character by character in the forms of section 7 of RFC 8259 |
| `Json.HexDigitsRead` | crates/geata/src/config.rs:678-684 | the digits of a `u` escape are the sixteen hex digits, in either case, and no others |
| `Json.QuotedIsPrefixFree` | crates/geata/src/payments/lightning/mod.rs:440-447 | a text determines the JSON literal it begins with |
| `Tokenizer.Tokenize` | crates/geata/src/config.rs:637-722 | the cursor loop computes the tokens, with line numbers, or the first error |
| `Tokenizer.ReadQuoted` | crates/geata/src/config.rs:661-695 | the scan of one quoted argument and its three errors |
| `Tokenizer.ReadBare` | crates/geata/src/config.rs:696-714 | a bare argument up to the next delimiter; a quote inside it is an error |
| `Tokenizer.PrintedFormTokenizes` | crates/geata/src/config.rs:637-722 | tokenizing any printed layout gives its tokens on the lines where they stand |
| `Tokenizer.BrokenTextIsRefused` | crates/geata/src/config.rs:661-714 | a text that is well laid out up to a literal or argument that cannot be read is refused for exactly that, on its line |
| `Tokenizer.NormalFormKeepsTokens` | crates/geata/src/config.rs:637-722 | every accepted file has a normal form with the same tokens and lines |
| `Tokenizer.LexIsValid` | crates/geata/src/config.rs:637-722 | tokens are printable and in line order |
| `Directives.ParseDirectives` | crates/geata/src/config.rs:311-592 | the cursor loop over a block: the site, or an error and where it is reported |
| `Directives.FirstRefusalIsReported` | crates/geata/src/config.rs:329-540 | an error points at the first word of the first directive that cannot be taken |
| `Directives.NumbersAreExact` | crates/geata/src/config.rs:497-501 | a number is decimal digits in range after at most one plus sign; a count is digits alone and positive |
| `Directives.RatesAreExact` | crates/geata/src/config.rs:489-511 | exactly which arguments are a rate, and which one |
| `Directives.ResponsesAreExact` | crates/geata/src/config.rs:724-759 | exactly which arguments are a response: a bare three-digit status alone, or a body with or without a status; 204, 205 and 304 have no body |
| `Directives.ControlsAreExact` | crates/geata/src/config.rs:435-488 | a control is off or a positive number in range, a prefix at most 128 |
| `Directives.SplitOfConcat` | crates/geata/src/config.rs:329-355 | whole directives written one after the other are cut apart again |
| `Directives.SameSiteInAnyOrder` | crates/geata/src/config.rs:311-592 | whole directives make the same site, or none, in every order, unless one can swallow another |
| `Directives.OrderMattersExactlyWhenSwallowed` | crates/geata/src/config.rs:332-353 | an accepted block means the same in every order if and only if no quoted keyword can be taken for an argument |
| `Directives.OtherSwallowsAreRefused` | crates/geata/src/config.rs:339-353 | a protocol list or a response that takes a keyword for an argument is refused |
| `SiteText.QuotedKeywordChangesTheSite` | crates/geata/src/config.rs:339-344 | two orders of one list of directives, both accepted under the rules for header names, prices and protocols, that make different sites |
| `SiteText.OnlyHeadersSwallowSilently` | crates/geata/src/config.rs:339-353 | under the same rules a keyword swallowed by a protocol list or a response is always refused |
| `SiteText.PrintedSettingsReadBack` | crates/geata/src/config.rs:311-592 | settings printed in any order are the settings read back |
| `SiteText.SiteRoundTrip` | crates/geata/src/config.rs:311-592 | parsing a printed site gives the site back, field by field, in every order of its directives |
| `SiteText.TextRoundTrip` | crates/geata/src/config.rs:637-722 | a valid site written as text in any order, tokenized and parsed, is the site again |
| `SiteText.AcceptedSitesAreValid` | crates/geata/src/config.rs:311-592 | an accepted block makes only sites within the documented bounds, the same that can be printed |
| `SiteText.HandlerAloneHasDefaults` | crates/geata/src/config.rs:53-65 | a handler alone makes a free site with the default controls |
| `SiteText.ValueReads` | crates/geata/src/config.rs:360-532 | each printed setting is read as its value |
| `SiteText.ResponseReads` | crates/geata/src/config.rs:724-759 | a printed response is read as its body and status |
| `SiteText.RewritingKeepsTheSite` | crates/geata/src/config.rs:311-592 | every accepted block can be rewritten in printed form and makes the same site |
| `SiteText.PrintedTextMakesTheSite` | crates/geata/src/config.rs:637-722 | text, with any layout and comments, to tokens to site is the identity on settings |
| `Identity.ComputeTokenId` | crates/geata/src/payments/mod.rs:317-331 | the buffer loop digests the sorted, length-prefixed secrets |
| `Identity.BigEndianNumber` | crates/geata/src/payments/mod.rs:324-327 | a length prefix is the number in eight bytes, the most significant first |
| `Identity.TokenIdsIdentifyProofs` | crates/geata/src/payments/mod.rs:317-331 | ids are equal if and only if the multisets of secrets are |
| `Identity.ComputeRequestHash` | crates/geata/src/payments/lightning/mod.rs:416-448 | the hash, or none for a foreign URL or an unprintable bound value |
| `Identity.EqualHashesBindEqualRequests` | crates/geata/src/payments/lightning/mod.rs:416-448 | hashes are equal if and only if method, URL, body and the ordered occurrences of every bound header are |
| `Admission.ReplaceConfig` | crates/geata/src/state.rs:34-67 | one pass over the new sites carries limiters and permits over |
| `Admission.KeptExactlyWhenUnchanged` | crates/geata/src/state.rs:34-67 | they are kept exactly where limit and prefix are unchanged |
| `Admission.ProofsAreMetered` | crates/geata/src/proxy.rs:279-470 | a proof is used only after the attempt was counted, over a secure connection, by an enabled protocol, alone |
| `Admission.ChoiceIsExact` | crates/geata/src/proxy.rs:323-475 | when each way is taken, as equivalences: a proof or token alone, enabled, secure and with its store is used; 401, 503 and 400 otherwise; the allowance without a proof |
| `Admission.MeterGateIsExact` | crates/geata/src/proxy.rs:279-305 | what the verification limit answers: 429 exactly to a proof over the limit |
| `Admission.AskGateIsExact` | crates/geata/src/proxy.rs:496-571 | what a request without a proof is told: let through by its own limiter's token, else 402, 503 or 429 by the site and the challenge |
| `Admission.RefusedAtOnce` | crates/geata/src/proxy.rs:264-274 | 413 before anything else, and a token whose wallet is busy is declined with nothing touched |
| `Metering.ExaminedAtMostDrawn` | crates/geata/src/proxy.rs:279-303 | over every run, requests whose proof was examined are at most the tokens the verification limiter gave out |
| `Metering.ExaminedWithinTheRate` | crates/geata/src/proxy.rs:289-303 | over every run and in every window, the proofs of one client that a limiter lets through are at most its burst plus its refill |
| `Metering.ExaminedWereLetThrough` | crates/geata/src/proxy.rs:279-303 | a request whose proof was or is being examined was let through by its site's limiter before |
| `Metering.EveryEntryTakesAPermit` | crates/geata/src/proxy.rs:304-322 | over every run, the requests that entered a capped site are as many as the permits given out, and permits held stay within the maximum and each client's share |
| `Admission.DispatchedHaveConsumedExactlyOne` | crates/geata/src/proxy.rs:400-571 | a request that left a paid site's gate has consumed exactly one free token, SPENT key or ledger claim, which no other request has |
| `Admission.NothingGivenOutTwice` | crates/geata/src/proxy.rs:400-571 | everything given out has exactly one request that used it |
| `Admission.RefusedConsumesNothing` | crates/geata/src/proxy.rs:279-322 | a request refused by the verification limit, for lack of capacity, for its headers or for lack of allowance never consumes anything, and no transaction is ever under way for it |
| `Provenance.SpentKeyWasProved` | crates/geata/src/proxy.rs:400-447 | over every run, a request charged with a payment hash carried the proof of it alone: a genuine payment in its window, or a credential that the stored root authorized when it was verified |
| `Provenance.ClaimPaidTheConfiguredPrice` | crates/geata/src/proxy.rs:448-495 | over every run, a request charged with a ledger claim carried that token alone, and the ledger of the site's mint admitted it at that site and its configured price |
| `Provenance.FreeTokenWasTheClients` | crates/geata/src/proxy.rs:496-504 | over every run, a request charged with a free token drew it as its own client from its own site's limiter |
| `Provenance.ReceivedCoversConfiguredPrices` | crates/geata/src/proxy.rs:475 | over every run, what a mint's wallet received covers the configured prices of all requests charged with its tokens |
| `Provenance.RequestsStayAsArrived` | crates/geata/src/proxy.rs:256-263 | over every run, the site, its price and the headers of a request are those of its arrival, whatever is reloaded meanwhile |
| `Service.PaymentIsServed` | crates/geata/src/proxy.rs:279-447 | a request that passes the gates with one genuine, unspent payment in its window is dispatched, charged with it |
| `Service.CredentialAdmits` | crates/geata/src/proxy.rs:279-447 | a request that passes the gates with one credential that its stored root authorizes is dispatched, charged with the payment behind it |
| `Service.TokenIsServed` | crates/geata/src/proxy.rs:279-495 | a request that passes the gates with one token worth its site's price is dispatched, charged with the claim of that token |

## Left out

- Asynchronous methods (`settle`, `collect_inner`, `automatic_payout`, `prune_cashu_deposits`, `certificate_loop`, `request_filter`) are step functions over values, because another step may come at each await; the transactions and in-memory structures they use are classes.
- SHA-256, HMAC, BOLT11 signatures and DLEQ proofs are arbitrary functions or verdicts, and ROOTS is keyed by the identifier instead of its digest.
- Settlement.AdmittedAtMostOnce: a payment's checks that do not read the clock are one verdict, supplied by the environment.
- L402.Verify: the macaroon library's own second verification, third-party caveats and the binary format are not part of this model; a caveat is a text.
- Payout.AttemptsSpaced: the start of an attempt is the time that the attempt read from the clock.
- Deposits.DeletedOnlyWhenSettled: quote ids and invoice keys are never reused by a mint.
- Directives.ParseDirectives: which upstreams, prices, protocol lists and policies are acceptable is a parameter, and the accepted texts stand for the values parsed from them; the blocks around site bodies, receivers and payout policies are not part of this model.
- Identity.EqualHashesBindEqualRequests: byte strings are written as strings; all texts that are hashed are ASCII there.
- Identity.TokenIdsIdentifyProofs: sorting is an insertion sort; the order is that of bytes.
- Admission.DispatchedHaveConsumedExactlyOne: consumed means admitted, so a claim that commits after its request was cancelled counts for nobody; redirects, the content of challenges, the status that answers a declined proof, header forwarding and the response itself are not part of this model; a limiter is created at its first use.
- Scheduler.OrderStartsExactlyWhen: that a certificate is due for renewal, and the order in which domains are taken, are choices of the environment.
- The CDK wallet, SQLite, redb, the LDK client and mint HTTP are an environment with the assumptions above.
- Account registration, certificate parsing and installation, TLS and ACME messages.
- Storage permissions, fsync, logging, the command line, Pingora plumbing and upstream DNS.
- Validation of URLs, domains, intervals and prices: each is settled by reading one branch.
