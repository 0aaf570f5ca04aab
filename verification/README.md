# Liqvera: payment ledger, browser guards and exact arithmetic

A Dafny model of the parts of Liqvera that must not go wrong: how a report is
paid for exactly once, how the browser avoids paying or signing twice, and the
exact arithmetic behind quotes, sale plans, order-book sweeps, Trove limits,
decimals and the keeper's log index. `dafny verify dfyconfig.toml` checks all of it.

## What is modelled

**Payment ledger.** `LedgerRows` holds the tables with the constraints and
triggers of the migrations; `LedgerTransactions` says what every transaction
commits or why it is refused; `LedgerStore.Ledger` is the object that runs them
statement by statement on tables updated in place, with roll-back; each method
is proved to commit what its transaction says, to keep every rule of a reachable
ledger (`Valid`) and to lose no monotone fact (`Safe`). `Protocol` puts readers,
P3 operators, recovery calls, builders and workers side by side: every handler
is a process with a program counter and the copies it read earlier, every
transaction or external call is one step, any process may stop between two
steps, and clocks, receipts and errors are chosen by the action. Handlers are
program counters rather than straight-line methods because each `await` is a
place where the others run. `LedgerInvariant` names the rules of every
reachable ledger; `LedgerSteps`, `SubmissionSteps`, `ConfirmationSteps` and
`RequestSteps` prove that each transaction keeps them; `LedgerOutcomes` spells
out, in the rows a transaction finds, the exact condition of each answer and
every row it leaves; `SystemInvariant`
carries them over whole runs; `Guarantees` and `Housekeeping` draw the
conclusions; `SampleRun` reaches a paid quote, so the conclusions are not about
nothing.

**Browser guards.** `BrowserFlow` is the report-payment session next to the
gateway it pays, where every save may fail, `BrowserSafety` what its guard is
worth, `BrowserGap` the runs in which it is lost. `TroveRecords` is the Trove action store as values,
`TroveStore` the classes that update memory and storage in place and keep what
records may claim, `TroveTabs`
any number of tabs sharing storage and one lock per borrower, `TroveSafety` the
proof that they never send two unresolved transactions, `TroveSample` one run
in full. Both flows are event machines: one event is what a page
does without awaiting, between two events a page may be reloaded or closed, and
an answer may come late or never.

**Arithmetic.** `Amm` (constant-product quote and its inverse), `SalePlan`
(splitting a sale under an impact cap), `FillCost` and `Sweep` (order-book depth),
`TroveMath` (limits, rescue amounts and the transaction guards), `Digits`,
`ExactText` and `DecimalText` (parsing, printing and normalising decimals), `Fractions`
(finite expansions, common multiples, lots), `KeeperLogs` and `Keeper`
(armed policies from chunked log scans). `Arith`, `Decimals` and `Wrappers`
are shared helpers.

## Where the code differs from what it promises

- A session is meant never to pay twice. It does not, through lost answers,
  reloads, refusals and failing saves (`BrowserSafety.PaysOnce`), with one
  exception: when the save that concludes a paid attempt throws, the page keeps
  its own flow with guard `clear` and lets the user press again.
  `BrowserGap.PayingTwiceIsReached` is the run, and
  `BrowserSafety.PaysAgainExactly` says that a second paid request over an open
  one can follow if and only if that save failed. With working storage a session
  ever sends one paid request at all (`BrowserSafety.StoredPaysOnceEver`), also
  once the first is settled or expired; `BrowserSafety.PaysEverExactly` lists
  exactly the failing saves after which it can send another, and
  `BrowserGap.PayingOverExpiredIsReached` is one over an expired quote, by a page
  whose clock is behind.
- The payment guard is meant to stay raised until the outcome is known. Which
  turns of the page clear it with something still open depends on what the page
  holds: `BrowserGap.SoundExactly` says that a reset is always justified if and
  only if it rests on a report or on a quote seen as expired or paid, and
  `BrowserSafety.EveryResetHasAShape` that no other turns clear the guard. An
  answer without report (`onRecoveryInfo` saves the page's own clear flow) or a
  poll loses it only together with a failing save: while storage
  works, `BrowserSafety.WorkingStorage` leaves one case, a cancelled attempt
  that read the quote as READY before another session paid
  (`BrowserGap.StaleReadyIsReached`). `BrowserSafety.StillSettledOnce`: the
  ledger settles the quote at most once all the same.
- `sweep_depth` refuses a quantity that the displayed depth covers when a level
  it reaches is spelled with more than eight places or is out of range, even
  with trailing zeros: `Sweep.SweepNinePlaces`; `DecimalText.ReadsExactly` and
  `Sweep.SweepDepth` state the exact condition.
- Inverting a quote for an output that only an input beyond the word size
  reaches reports an invalid input, not an overflow: `Amm.AmountInComplete`.
- The transition trigger lets a payment under manual review be confirmed again,
  but its receipt rows already exist, so `confirm` always fails on them:
  `Guarantees.ReviewIsFinal`.

## Model

| member | source | states |
|---|---|---|
| `LedgerStore.Ledger.constructor` | apps/mezo-gateway/src/adapters/postgres.ts:29-30 | A new ledger has empty tables and keeps its merchant address |
| `LedgerStore.Ledger.CreateRequest` | apps/mezo-gateway/src/adapters/postgres.ts:67-84 | A key that is there answers with its row or conflicts; a new one is written unless over budget; each answer exactly in its case; the ledger stays valid and loses nothing |
| `LedgerStore.Ledger.ClaimBuild` | apps/mezo-gateway/src/adapters/postgres.ts:102-114 | The picked request is leased for 20 seconds if and only if it waits and fewer than four builds run; builds whose lease ran out have failed, all other rows stay; the ledger stays valid |
| `LedgerStore.Ledger.RejectBuild` | apps/mezo-gateway/src/adapters/postgres.ts:115-118 | Only a request still preparing ends, as rejected or failed; the ledger stays valid |
| `LedgerStore.Ledger.Publish` | apps/mezo-gateway/src/adapters/postgres.ts:119-132 | Artifact, READY quote and request are written together, or nothing, with each refusal in the order of the code and constraints; the ledger stays valid |
| `LedgerStore.Ledger.Expire` | apps/mezo-gateway/src/adapters/postgres.ts:133-135 | Only a READY quote past its time becomes EXPIRED; no trigger fires and the ledger stays valid |
| `LedgerStore.Ledger.UpdateQuote` | apps/mezo-gateway/migrations/001_ledger.sql:105-129 | A quote moves only along the trigger's transitions, otherwise the row is unchanged and the error raised |
| `LedgerStore.Ledger.UpdateAttempt` | apps/mezo-gateway/migrations/001_ledger.sql:116-130 | An attempt moves only along the trigger's transitions and never changes a known transaction hash |
| `LedgerStore.Ledger.BeginAttempt` | apps/mezo-gateway/src/adapters/postgres.ts:136-151 | Inserts a VERIFIED attempt and moves a READY, unexpired quote to PAYMENT_PENDING, or refuses and changes nothing; the ledger stays valid |
| `LedgerStore.Ledger.Spend` | apps/mezo-gateway/src/adapters/postgres.ts:167-184 | Under a signed grant one row is inserted exactly while its window is open, count and sum have room and the payer is new; under an unsigned one exactly if it was not used |
| `LedgerStore.Ledger.MarkSubmitting` | apps/mezo-gateway/src/adapters/postgres.ts:152-196 | Exactly which submission crosses, expires, is refused or turned away, and every row after it: a signed grant admits only inside its window, its count and its sum; no trigger fires; the ledger stays valid |
| `LedgerStore.Ledger.MarkUnknown` | apps/mezo-gateway/src/adapters/postgres.ts:197-205 | Marks a submitted attempt and its pending quote uncertain, keeps the first hash, leaves every other state alone and the ledger valid |
| `LedgerStore.Ledger.Confirm` | apps/mezo-gateway/src/adapters/postgres.ts:225-250 | The first reason against a receipt, or event, a seven-day entitlement, CONFIRMED and PAID together; the ledger stays valid |
| `LedgerStore.Ledger.HoldForReview` | apps/mezo-gateway/src/adapters/postgres.ts:251-259 | Moves a submitted or confirmed attempt and its quote to manual review and keeps the ledger valid |
| `LedgerStore.Ledger.RecordDelivery` | apps/mezo-gateway/src/adapters/postgres.ts:260-270 | A delivery is recorded if and only if the quote is the caller's, paid, entitled by a confirmed attempt and still retained; nothing else changes |
| `LedgerStore.Ledger.LeaseReconciliation` | apps/mezo-gateway/src/workers/reconciliation.ts:6-10 | An attempt is leased for a minute if and only if it is uncertain and due, and the try is counted |
| `LedgerStore.Ledger.RecoverUnsubmitted` | apps/mezo-gateway/src/workers/reconciliation.ts:31-45 | Never raises; exactly the stale attempts among the rows are rejected and exactly their quotes are READY again or, past their time, EXPIRED |
| `LedgerStore.Ledger.RemoveUnpaid` | apps/mezo-gateway/src/workers/retention.ts:6-20 | A stored report goes exactly when its quote, among the rows, expired more than 15 minutes ago with nothing submitted or paid on it |
| `SubmissionSteps.BeginAttemptSafe` | apps/mezo-gateway/src/adapters/postgres.ts:136-151 | Keeps every rule of the ledger and every monotone fact |
| `SubmissionSteps.MarkSubmittingCases` | apps/mezo-gateway/src/adapters/postgres.ts:152-196 | Which outcomes are possible on a consistent ledger and what each leaves behind; a signed grant only inside its window |
| `SubmissionSteps.MarkSubmittingSafe` | apps/mezo-gateway/src/adapters/postgres.ts:152-196 | Keeps every rule, including the grant budgets, and every monotone fact |
| `LedgerSteps.MarkUnknownSafe` | apps/mezo-gateway/src/adapters/postgres.ts:197-205 | Keeps every rule and every monotone fact |
| `LedgerSteps.HoldForReviewSafe` | apps/mezo-gateway/src/adapters/postgres.ts:251-259 | Keeps every rule and every monotone fact |
| `LedgerSteps.RejectAllStaleSafe` | apps/mezo-gateway/src/workers/reconciliation.ts:31-45 | Keeps every rule whatever rows a stale snapshot selected |
| `ConfirmationSteps.ConfirmDecides` | apps/mezo-gateway/src/adapters/postgres.ts:225-250 | On a consistent ledger, exactly when confirming commits |
| `LedgerOutcomes.SubmissionDecides` | apps/mezo-gateway/src/adapters/postgres.ts:152-196 | For every attempt of a valid ledger the one outcome, in the rows and times themselves: a verified, unexpired attempt crosses under a signed grant if and only if window, count, sum and payer admit it |
| `LedgerOutcomes.ConfirmAnswers` | apps/mezo-gateway/src/adapters/postgres.ts:225-250 | The answer to a receipt and, if it confirms, every row written |
| `LedgerOutcomes.RetentionDecides` | apps/mezo-gateway/src/adapters/postgres.ts:260-270 | For a paid quote and its own view a delivery is recorded if and only if now is before retain_until, which is seven days after the confirmation |
| `LedgerOutcomes.AllRecover` | apps/mezo-gateway/src/workers/reconciliation.ts:31-45 | Every attempt and every quote after the sweep |
| `LedgerOutcomes.RemovalMeans` | apps/mezo-gateway/src/workers/retention.ts:6-20 | Every stored report after the cleanup |
| `LedgerOutcomes.RequestAnswers` | apps/mezo-gateway/src/adapters/postgres.ts:67-84 | Replay, conflict, budget and new request each exactly in its case |
| `LedgerOutcomes.ClaimDecides` | apps/mezo-gateway/src/adapters/postgres.ts:102-114 | Every request row after a claim |
| `LedgerOutcomes.BackoffMeans` | apps/mezo-gateway/src/workers/reconciliation.ts:27-28 | The wait between tries doubles from 30 seconds up to an hour |
| `LedgerOutcomes.BeginDecides` | apps/mezo-gateway/src/adapters/postgres.ts:136-151 | An attempt begins exactly on a READY, unexpired quote with an unused authorization; each refusal exactly in its case |
| `LedgerOutcomes.PublishDecides` | apps/mezo-gateway/src/adapters/postgres.ts:119-132 | The first reason against a publication, or its three rows |
| `LedgerOutcomes.UnknownMarks` | apps/mezo-gateway/src/adapters/postgres.ts:197-205 | Both rows after `unknown`, the first hash kept |
| `LedgerOutcomes.ReviewHolds` | apps/mezo-gateway/src/adapters/postgres.ts:251-259 | Both rows after a review |
| `LedgerOutcomes.SweepMeans` | apps/mezo-gateway/src/workers/retention.ts:28 | Exactly the READY quotes past their time expire |
| `LedgerOutcomes.ActivationMeans` | apps/mezo-gateway/src/adapters/postgres.ts:50-59 | A grant is recorded exactly on consistent, new terms and keeps the terms it was first recorded with |
| `ConfirmationSteps.ConfirmSafe` | apps/mezo-gateway/src/adapters/postgres.ts:225-250 | Keeps every rule and every monotone fact |
| `ConfirmationSteps.RecordDeliverySafe` | apps/mezo-gateway/src/adapters/postgres.ts:260-270 | Keeps every rule; only entitled quotes are delivered |
| `ConfirmationSteps.RemoveUnpaidSafe` | apps/mezo-gateway/src/workers/retention.ts:6-20 | Keeps every rule; no entitled report is deleted |
| `ConfirmationSteps.SweepExpiredSafe` | apps/mezo-gateway/src/workers/retention.ts:28 | Keeps every rule and every monotone fact |
| `RequestSteps.CreateRequestSafe` | apps/mezo-gateway/src/adapters/postgres.ts:67-84 | Keeps every rule and every monotone fact |
| `RequestSteps.ClaimBuildSafe` | apps/mezo-gateway/src/adapters/postgres.ts:102-114 | Keeps every rule, including at most four live leases |
| `RequestSteps.RejectBuildSafe` | apps/mezo-gateway/src/adapters/postgres.ts:115-118 | Keeps every rule and every monotone fact |
| `RequestSteps.PublishSafe` | apps/mezo-gateway/src/adapters/postgres.ts:119-132 | Keeps every rule and every monotone fact |
| `SystemInvariant.StepKeeps` | apps/mezo-gateway/src/application/gateway.ts:87-184 | Every step of every process keeps the invariant and what all others know |
| `SystemInvariant.RunKeeps` | apps/mezo-gateway/src/application/gateway.ts:87-184 | So does every run |
| `Guarantees.SettleOnce` | apps/mezo-gateway/src/application/gateway.ts:105-128 | In every run no two settle calls share a quote, an authorization or a merchant nonce |
| `Guarantees.SettleOncePerKey` | apps/mezo-gateway/src/application/gateway.ts:105-128 | Nor a scope and idempotency key |
| `Guarantees.BoundaryBeforeSettle` | apps/mezo-gateway/src/application/gateway.ts:107-116 | The durable SUBMITTING boundary precedes the only external settle |
| `Guarantees.NoWayBack` | apps/mezo-gateway/src/adapters/postgres.ts:152-205 | After the boundary an attempt stays beyond it and its quote is never READY or EXPIRED again |
| `Guarantees.VerifiedOnce` | apps/mezo-gateway/src/adapters/postgres.ts:136-151 | No attempt re-enters VERIFIED |
| `Guarantees.LateUnknown` | apps/mezo-gateway/src/adapters/postgres.ts:197-205 | A late `unknown` leaves a confirmed or reviewed payment exactly as it is |
| `Guarantees.ReviewIsFinal` | apps/mezo-gateway/src/adapters/postgres.ts:225-259 | A confirmed payment put under review stays there in every continuation |
| `Guarantees.Lockstep` | apps/mezo-gateway/src/adapters/postgres.ts:136-259 | At most one non-rejected attempt per quote, none exactly when READY or EXPIRED, otherwise in the matching state |
| `Guarantees.PaidMeansReceipt` | apps/mezo-gateway/src/adapters/postgres.ts:225-250 | A paid quote is entitled and its receipt names its payer, recipient, amount, report, hash and confirmed attempt |
| `Guarantees.EntitlementsStay` | apps/mezo-gateway/src/adapters/postgres.ts:244-250 | Entitlements are never withdrawn or rewritten |
| `Guarantees.OneTransferOneQuote` | apps/mezo-gateway/src/adapters/postgres.ts:235-245 | One transfer on the chain entitles at most one quote |
| `Guarantees.OneSettlePerGrant` | apps/mezo-gateway/src/adapters/postgres.ts:10-19 | A v1 grant digest permits at most one settle |
| `Guarantees.SignedGrantBudget` | apps/mezo-gateway/src/adapters/postgres.ts:167-195 | Under a v2 grant ordinals are 1..n, n and the sum stay within the grant, and settles are at most n |
| `Guarantees.OnePerPayer` | apps/mezo-gateway/migrations/006_signed_live_grant_authority.sql:22-31 | Reservations of a v2 grant have distinct payers and attempts |
| `Guarantees.SpentOnlyByCrossing` | apps/mezo-gateway/src/adapters/postgres.ts:167-195 | A grant is spent only in the step that moves the process's own attempt from VERIFIED to SUBMITTING, by exactly one row for that attempt under the grant it names, inside the grant's window, count and sum |
| `Guarantees.OperatorSpends` | apps/mezo-gateway/src/adapters/postgres.ts:162-192 | An operator's submission crosses only by spending a grant |
| `Guarantees.DeliversWhileRetained` | apps/mezo-gateway/src/adapters/postgres.ts:260-270 | In every reachable world a process with a paid quote records its delivery exactly while the report is retained |
| `Guarantees.ReadsWhileRetained` | apps/mezo-gateway/src/application/gateway.ts:130-184 | And it goes on to the report exactly while its own clock is before retain_until |
| `Guarantees.GivesUpWhen` | apps/mezo-gateway/src/workers/reconciliation.ts:17-26 | The worker asks for review after ten tries or on an answer that asks for it, the gateway never by giving up |
| `Housekeeping.ExpiredIdle` | apps/mezo-gateway/src/adapters/postgres.ts:133-160 | All attempts of an expired quote are rejected, nothing of it was settled, it is not entitled |
| `Housekeeping.ExpiredForever` | apps/mezo-gateway/src/workers/retention.ts:28 | EXPIRED is absorbing and stays so in every continuation |
| `Housekeeping.DeletedForever` | apps/mezo-gateway/src/workers/retention.ts:6-18 | A deleted artifact belongs to a quote that is not and never becomes entitled |
| `Housekeeping.Builds` | apps/mezo-gateway/src/adapters/postgres.ts:102-132 | At most four live leases, each request claimed at most once, at most one quote per request |
| `Housekeeping.FailedForever` | apps/mezo-gateway/src/adapters/postgres.ts:102-132 | A swept or rejected build is never published by its late worker |
| `Housekeeping.TriggersSilent` | apps/mezo-gateway/migrations/001_ledger.sql:105-130 | No transaction that a process is about to make is refused by a transition trigger |
| `SampleRun.PaidIsReached` | apps/mezo-gateway/src/application/gateway.ts:105-128 | A run reaches a paid, entitled quote with one settle |
| `SampleRun.UncertainIsReached` | apps/mezo-gateway/src/application/gateway.ts:112-128 | A run reaches a submitted payment without entitlement after the reader answered 202 |
| `BrowserFlow.ReactKeeps` | apps/mezo-web/src/browser-orchestration.ts:81-125 | Every turn of the page, with any of its saves failing, keeps what page, storage and attempt have to do with each other, given the ledger's facts |
| `BrowserFlow.TurnsMean` | apps/mezo-web/src/browser-orchestration.ts:81-125 | What page and storage hold after each turn: an attempt ends uncertain unless it was cancelled and its quote read READY; an expired quote without hash and a delivered report clear the guard |
| `BrowserFlow.ReactHolds` | apps/mezo-web/src/browser-orchestration.ts:81-125 | No turn takes the guard off an open payment, in page or storage, unless the save that concludes a paid attempt fails |
| `BrowserFlow.ConcludingHolds` | apps/mezo-web/src/browser-orchestration.ts:95-124 | Concluding an open paid attempt guards page and storage if and only if that save goes through |
| `BrowserSafety.PaysOnce` | apps/mezo-web/src/browser-orchestration.ts:81-125 | Without such a failure no paid request goes out while an earlier one of the session is open |
| `BrowserSafety.PaysAgainExactly` | apps/mezo-web/src/main.ts:616-624 | After an open paid request is answered or lost, a second one can go out over it if and only if the concluding save failed |
| `BrowserSafety.PaysOnceEver` | apps/mezo-web/src/main.ts:615-624 | Unless one of the listed saves failed, a session ever sends one paid request, whatever became of the first |
| `BrowserSafety.StoredPaysOnceEver` | apps/mezo-web/src/main.ts:615-646 | So with working storage a session ever sends one paid request |
| `BrowserSafety.PaysEverExactly` | apps/mezo-web/src/main.ts:462-484 | A session that has paid can send another paid request after a turn if and only if that turn's failing save is one of those listed |
| `BrowserGap.PayingOverExpiredIsReached` | apps/mezo-web/src/main.ts:480-482 | A run in which the guard is cleared for an expired quote, its save fails, and the page still offers the quote |
| `BrowserGap.PayingTwiceIsReached` | apps/mezo-web/src/browser-orchestration.ts:95-124 | A run in which the session sends a second paid request over its open first |
| `BrowserSafety.ReloadRestores` | apps/mezo-web/src/browser-orchestration.ts:92-97 | When the save after a lost answer fails, a reload finds the guard raised before the request |
| `BrowserSafety.StartedBeforePaid` | apps/mezo-web/src/browser-orchestration.ts:92-97 | `started` is in storage when a paid request goes out |
| `BrowserSafety.ClearMeansClosed` | apps/mezo-web/src/browser-flow.ts:65-82 | Unless a concluding save failed, a clear guard in storage over an own payment means the quote expired unpaid or is paid for |
| `BrowserSafety.ClosedForever` | apps/mezo-web/src/browser-flow.ts:79-82 | Clearing on EXPIRED is sound forever: the quote is never settled; a paid quote stays entitled |
| `BrowserSafety.ReadyMeansUntouched` | apps/mezo-web/src/browser-orchestration.ts:112-121 | A quote read as READY has had no settlement submitted |
| `BrowserSafety.CancelledReadsUntouched` | apps/mezo-web/src/browser-orchestration.ts:112-121 | The READY that lets a cancelled attempt clear its guard is read from an untouched quote |
| `BrowserSafety.EveryResetHasAShape` | apps/mezo-web/src/main.ts:462-505 | Every turn that clears the stored guard is one of the listed kinds |
| `BrowserSafety.SafeShapesAreSound` | apps/mezo-web/src/browser-flow.ts:65-82 | A reset on a report, or on a quote seen as expired or paid, leaves nothing open in every reachable session, whatever saves failed before |
| `BrowserGap.UnsafeShapesFail` | apps/mezo-web/src/main.ts:626-634 | Every other kind of reset has a reachable run that clears the guard over a submitted, unpaid quote |
| `BrowserGap.SoundExactly` | apps/mezo-web/src/main.ts:462-505 | So a kind of reset is always justified if and only if it rests on a report or on an expired or paid quote |
| `BrowserSafety.WorkingStorage` | apps/mezo-web/src/browser-orchestration.ts:112-121 | While storage works, only a cancelled attempt that read READY can clear the guard with something open, and then this session never paid |
| `BrowserGap.StaleReadyIsReached` | apps/mezo-web/src/browser-orchestration.ts:112-121 | A run with working storage in which another session pays between that read and the reset |
| `BrowserSafety.StillSettledOnce` | apps/mezo-gateway/src/application/gateway.ts:105-128 | Whatever the guard says, the gateway settles the session's quote at most once |
| `TroveRecords.AdvancedNeverBack` | apps/mezo-web/src/trove-action-receipts.ts:12-20 | Merging two versions of a record never loses a resolution, a hash or a later observation |
| `TroveRecords.MergeKeepsFurthest` | apps/mezo-web/src/trove-action-receipts.ts:58-68 | The merge of memory and storage is as far along as its furthest version; between equals the unsaved one wins |
| `TroveRecords.UpdateKeeps` | apps/mezo-web/src/trove-action-receipts.ts:90-104 | Memory, unsaved marks, guard and stored records after an update, for every combination of failing storage calls |
| `TroveRecords.CancelKeeps` | apps/mezo-web/src/trove-action-receipts.ts:105-112 | The same for a rejection |
| `TroveRecords.UnresolvedMeans` | apps/mezo-web/src/trove-action-receipts.ts:69-78 | When the guard blocks signing, when it is unreadable, and which hash it is shown with |
| `TroveStore.TroveActionStore.constructor` | apps/mezo-web/src/trove-action-receipts.ts:47-52 | A new store is valid, has empty memory and no warning |
| `TroveStore.TroveActionStore.Records` | apps/mezo-web/src/trove-action-receipts.ts:58-68 | Memory becomes the merge with storage; an unreadable storage leaves it and warns; records claim only what is known |
| `TroveStore.TroveActionStore.Begin` | apps/mezo-web/src/trove-action-receipts.ts:79-89 | Begins if and only if there is no guard and it can be written; then the intent is the guard and is in memory, else nothing changes |
| `TroveStore.TroveActionStore.Update` | apps/mezo-web/src/trove-action-receipts.ts:90-104 | What memory, unsaved marks, guard, stored records and the warning are after each possible storage failure; an invalid record is refused; the guard comes up only as the record itself and goes down only for its own resolved record |
| `TroveStore.TroveActionStore.CancelRejected` | apps/mezo-web/src/trove-action-receipts.ts:105-112 | The guard goes down exactly when it is the rejected action's own and storage answers; the store stays valid |
| `TroveSafety.UpdatedKnown` | apps/mezo-web/src/trove-action-receipts.ts:90-104 | An unresolved update leaves the guard or makes it its own record, a resolved one takes down only its own; what records may claim is kept |
| `TroveSafety.StepSafe` | apps/mezo-web/src/trove-protection-panel.ts:124-179 | Every step of every tab, confirmation, wallet and failing storage call keeps the invariant |
| `TroveSafety.SendsOneAtATime` | apps/mezo-web/src/trove-protection-panel.ts:124-149 | A transaction is sent only when every earlier one has an observed receipt, and no other request is with the wallet |
| `TroveSafety.SavingNeverCancels` | apps/mezo-web/src/trove-protection-panel.ts:140-146 | Saving after a send cannot throw, so the cancel branch never drops a live guard |
| `TroveSafety.GuardOutlivesAction` | apps/mezo-web/src/trove-action-receipts.ts:58-112 | A guard goes down or is replaced only when its action is neither with the wallet nor awaiting a receipt |
| `TroveSafety.GuardMovesAlone` | apps/mezo-web/src/trove-action-receipts.ts:79-112 | In every step the guard of an action comes up only by its own begin, over no other guard, and goes down only by a rejection, receipt or observation of its own |
| `TroveSafety.GuardNeverBack` | apps/mezo-web/src/trove-action-receipts.ts:90-112 | In every continuation of every run a guard that went down, or was never up, does not come back: no stale update resurrects it |
| `TroveSample.ConfirmedIsReached` | apps/mezo-web/src/trove-protection-panel.ts:124-149 | A run sends an action, observes its receipt and takes its guard down |
| `Amm.OutputBelowReserve` | packages/evidence-report/src/liqvera_evidence_report/calculation.py:45-53 | The output is strictly below the reserve |
| `Amm.OutputMono` | packages/evidence-report/src/liqvera_evidence_report/calculation.py:45-53 | The output grows with the input through truncated fee and division |
| `Amm.LeastInputDecides` | packages/evidence-report/src/liqvera_evidence_report/calculation.py:56-74 | An input reaches the quantity exactly when it is at least the inverse |
| `Amm.AmountInIsLeast` | packages/evidence-report/src/liqvera_evidence_report/calculation.py:56-74 | When the inverse returns an amount it reaches the quantity and nothing smaller does |
| `Amm.AmountInComplete` | packages/evidence-report/src/liqvera_evidence_report/calculation.py:38-74 | Returns exactly when some executable input reaches the quantity; insufficient liquidity, invalid input and overflow each exactly in its own case |
| `Amm.AmountOutMeans` | packages/evidence-report/src/liqvera_evidence_report/calculation.py:38-53 | Fee and output as two-sided floors, and each error exactly in its case |
| `SalePlan.ImpactInRange` | apps/mezo-web/src/mezo-trade-plan.ts:6-10 | Impact lies between zero and ten thousand basis points |
| `SalePlan.MaxPart` | apps/mezo-web/src/mezo-trade-plan.ts:11-15 | The bisection ends at a part that is 1 or under the cap, with the reserve or a larger part over it, without monotone impact |
| `SalePlan.PlanBtcSale` | apps/mezo-web/src/mezo-trade-plan.ts:16-24 | Executable plans conserve inputs, outputs and fees; every slice has the floored fee, output and impact of the reserves it met, and the aggregate that of the whole sale, all in products; each refusal has its reason |
| `SalePlan.ReplaysMeans` | apps/mezo-web/src/mezo-trade-plan.ts:7-10 | Every slice of any replaying plan satisfies the pool's two-sided floors on reserves moved by all earlier slices |
| `SalePlan.ProductGrows` | apps/mezo-web/src/mezo-trade-plan.ts:16-24 | The product of the reserves never falls across the slices of any plan that replays |
| `SalePlan.ProductBound` | apps/mezo-web/src/mezo-trade-plan.ts:16-24 | However a sale is split it gets no more than the fee-free single trade |
| `SalePlan.AggregateFloor` | apps/mezo-web/src/mezo-trade-plan.ts:10-24 | No splitting brings the aggregate impact below floor(10000 T / (B + T)) |
| `Sweep.SweepDepth` | packages/readonly-analyzer/src/liqvera_readonly_analyzer/vwap.py:60-111 | Fills exactly when the levels before the first unreadable one hold the quantity, at a notional that some allocation of the whole book costs and none beats; which of the three refusals otherwise |
| `DecimalText.ReadsExactly` | packages/contracts/src/liqvera_contracts/exact.py:102-108 | A decimal of any exponent is read, by its plain spelling, exactly when it is spelled with at most eight places and fits, and as the number it stands for; else which error |
| `DecimalText.UnitsMean` | packages/contracts/src/liqvera_contracts/exact.py:172-182 | Units of any fine enough size add up to the decimal's value |
| `Sweep.NoneBeats` | packages/readonly-analyzer/src/liqvera_readonly_analyzer/vwap.py:73-96 | What the readable levels fill is reached by an allocation over the whole book and beaten by none, unreadable levels included |
| `Sweep.SweepNinePlaces` | packages/readonly-analyzer/src/liqvera_readonly_analyzer/vwap.py:78-83 | A size spelled with nine places makes the sweep refuse a quantity that the book holds |
| `FillCost.UsedIsLeast` | packages/readonly-analyzer/src/liqvera_readonly_analyzer/vwap.py:86-94 | The consumed levels are the shortest prefix that holds the quantity; the worst price is its last |
| `FillCost.GreedyIsReached` | packages/readonly-analyzer/src/liqvera_readonly_analyzer/vwap.py:73-96 | The greedy allocation buys the quantity from the displayed sizes at the greedy cost |
| `FillCost.GreedyIsBest` | packages/readonly-analyzer/src/liqvera_readonly_analyzer/vwap.py:73-96 | Greedy is least for BUY and greatest for SELL over all allocations within the level sizes |
| `FillCost.BetweenBestAndWorst` | packages/readonly-analyzer/src/liqvera_readonly_analyzer/vwap.py:96-111 | The average price lies between the best and the worst price taken |
| `FillCost.LargerIsNoBetter` | packages/readonly-analyzer/src/liqvera_readonly_analyzer/vwap.py:73-111 | A larger quantity never gets a better average on either side |
| `FillCost.ImpactNeverNegative` | packages/evidence-report/src/liqvera_evidence_report/calculation.py:14-19 | Price impact over the best level is never negative |
| `FillCost.ImpactMeans` | packages/evidence-report/src/liqvera_evidence_report/calculation.py:14-19 | The notional is the best price for all of it moved by the impact |
| `TroveMath.ComputeLimits` | apps/mezo-web/src/trove-math.ts:19-29 | Each limit as what it admits: deposits the wallet covers with gas, repayments that leave the minimum, and exactly the draws that keep capacity, 1.8 and CCR + 0.1 coverage and the system above CCR |
| `TroveMath.GuardsMatchRoom` | apps/mezo-web/src/trove-transactions.ts:80-87 | The ratio, system and capacity checks together ask that the draw with its truncated fee fits the room |
| `TroveMath.RepayGuard` | apps/mezo-web/src/trove-transactions.ts:75-79 | A repayment passes exactly when the wallet holds it and the minimum net debt stays; principal is untouched up to the interest and pays only the rest |
| `TroveMath.PrepareAction` | apps/mezo-web/src/trove-transactions.ts:70-88 | Prepared exactly when its guards pass and the wallet covers value and gas; collateral, debt, principal and fee afterwards in each case, interest paid first; each refusal in its own case |
| `TroveMath.LeastDepositIsLeast` | apps/mezo-web/src/trove-math.ts:30-38 | The unbuffered deposit is the least that lifts the floored ratio to the target |
| `TroveMath.LeastRepayIsLeast` | apps/mezo-web/src/trove-math.ts:30-38 | The unbuffered repayment is the least that brings the debt to the target |
| `TroveMath.RescueReachesTarget` | apps/mezo-web/src/trove-math.ts:30-38 | Both amounts reach the target, are zero exactly when already above, and exceed the least by less than 0.5% plus one unit |
| `TroveMath.RescueMeans` | apps/mezo-web/src/trove-math.ts:30-38 | Both amounts are the least that reach the target plus half a per cent rounded up; each error exactly in its case |
| `TroveMath.AvailableRepayIsAccepted` | apps/mezo-web/src/trove-transactions.ts:75-79 | An available rescue repayment passes the builder's guards, keeps minimum debt and principal, and reaches the target |
| `ExactText.ParseUndoesStr` | packages/contracts/src/liqvera_contracts/exact.py:73-121 | parse(str(x)) = x for every signed 64-bit scaled value |
| `ExactText.ParseRefuses` | packages/contracts/src/liqvera_contracts/exact.py:73-100 | Exactly which raw texts, sign included, are read and as what, too precise, out of range or malformed |
| `ExactText.OneSpelling` | apps/mezo-gateway/src/security/input.ts:29-36 | Gateway and browser normal form equals str(parse(s)) for every well-formed quantity in range; out of range the parser refuses |
| `ExactText.GatewayAccepts` | apps/mezo-gateway/src/security/input.ts:29-36 | The gateway accepts exactly the positive well-formed quantities of at most 32 characters |
| `ExactText.CanonicalIsStable` | apps/mezo-web/src/main.ts:465-470 | A normal form is its own normal form and keeps the number |
| `ExactText.StoredQuantityComesBack` | apps/mezo-gateway/src/workers/builds.ts:25-27 | The analyzer prints a stored quantity back unchanged, so the identity comparison cannot fail on spelling |
| `Fractions.Strip` | packages/contracts/src/liqvera_contracts/exact.py:187-195 | The loop divides out a factor completely and counts it |
| `Fractions.IsTerminating` | packages/contracts/src/liqvera_contracts/exact.py:206-213 | Decides exactly the reduced fractions with a finite decimal expansion |
| `Fractions.FractionFromDecimal` | packages/contracts/src/liqvera_contracts/exact.py:172-182 | The digit loop yields the value of the decimal |
| `Fractions.DecimalsAreFinite` | packages/contracts/src/liqvera_contracts/exact.py:172-182 | A number equal to some decimal has a finite expansion, so rounded output is never exact |
| `Fractions.DecimalFromFraction` | packages/contracts/src/liqvera_contracts/exact.py:185-203 | Exact precisely on finite expansions, and there inverted by fraction_from_decimal |
| `Fractions.FractionLcmIsCommon` | packages/contracts/src/liqvera_contracts/exact.py:216-221 | A common multiple, positive when both inputs are not zero |
| `Fractions.FractionLcmDivides` | packages/contracts/src/liqvera_contracts/exact.py:216-221 | It divides every common multiple |
| `Fractions.RoundUpIsLeast` | packages/contracts/src/liqvera_contracts/exact.py:224-227 | The least multiple of the lot that is not below the value |
| `KeeperLogs.SortPermuted` | services/guard-keeper/src/logic.ts:13-15 | Sorting gives one order whatever the order inside a batch |
| `KeeperLogs.SortSplit` | services/guard-keeper/src/logic.ts:13-15 | Logs split at a block sort piece by piece |
| `KeeperLogs.ArmedSet` | services/guard-keeper/src/logic.ts:18-25 | The loop computes the set armed after a full replay |
| `KeeperLogs.ArmedMeansLatest` | services/guard-keeper/src/logic.ts:18-25 | A borrower is armed exactly when its latest log on the chain is Armed, and then at that log's position |
| `Keeper.PolicyTracker.constructor` | services/guard-keeper/src/logic.ts:35-37 | A new tracker has seen nothing |
| `Keeper.PolicyTracker.Apply` | services/guard-keeper/src/logic.ts:39-48 | Applies a batch in chain order, replacing positions and clearing terminal marks |
| `Keeper.PolicyTracker.MarkTerminal` | services/guard-keeper/src/logic.ts:50-54 | Marks an armed borrower and no other |
| `Keeper.PolicyTracker.Pollable` | services/guard-keeper/src/logic.ts:60-63 | Exactly the armed borrowers without a terminal reading since their latest event, each once |
| `Keeper.TerminalMeaning` | services/guard-keeper/src/logic.ts:27-66 | Terminal are exactly the armed borrowers read as terminal since their latest event |
| `Keeper.PollStatuses` | services/guard-keeper/src/logic.ts:75-86 | Every pollable borrower is read once and marked exactly if its status is 1, 2 or 3; a failing read keeps the marks made so far |
| `Keeper.LogIndex.ApplyChunk` | services/guard-keeper/src/main.ts:44-51 | After an answered chunk exactly the borrowers whose last armed, disarmed or protected log up to the cursor armed them are in the index |
| `Keeper.LogIndex.SyncLogs` | services/guard-keeper/src/main.ts:35-54 | Full chunks tile the range without gap or overlap, and even when a fetch fails the index holds up to the cursor exactly the borrowers whose last policy log armed them, each at its position |

## Left out

- Audit and reconciliation event rows, rate buckets (a request's budget is a flag), metrics, HTTP routing and configuration: no property depends on them.
- The RPC receipt reader, x402 calls, facilitator transport and finality polling: the chain's answer is nothing, an error or any receipt.
- SHA-256, signatures, EIP-712 and grant-file parsing: digests and addresses are opaque values that are only compared; `authorizeNewSettlement` of the P3 operator only narrows when it may start and is not modelled.
- Receipt rows are kept inside the entitlement written by the same transaction; the receipt's block, balances and provenance columns are not modelled.
- Gateway.read and Gateway.recover as straight-line code: they are program counters of `Protocol`, one step per transaction or external call.
- The request's `reason` column, `states.json` and the schema assertions of the gateway.
- The browser's quote rendering, wallet discovery, several sessions at once and starting another report; a session is given its quote id and keeps it.
- BrowserFlow: the page's clock is free when the user presses and not tied to the gateway's; a turn of the page is not interrupted, so a browser process killed inside a turn is not modelled; the session starts with a readable storage; a poll and a payment attempt do not overlap, because polling ends in the same turn that shows a quote as READY and an attempt sets the page busy.
- TroveStore: the record lists are maps by id, so the order of records in the log is not captured; a synchronous store operation is one step.
- TroveTabs: a wallet that reports an explicit rejection has sent nothing, as the source assumes.
- `trove_risk`, report rendering, `minOutForQuote` and amount parsing of the browser: single expressions.
- Sweep: the coin-unit identity of the book, the envelope and epoch fields copied into the fill, and the branches for an empty level and for no consumed level, which positive sizes rule out.
- ExactText.ParseRefuses: an integer part beyond the interpreter's digit limit (4300 by default) raises a plain ValueError at exact.py:97, which is none of the listed errors; the model answers by shape and range.
- DecimalText.ReadsExactly: for the same reason a decimal whose plain spelling has a longer integer part is answered OutOfRange, while in the code that ValueError passes the handler of vwap.py:78-83 and ends the sweep.
- Fractions.DecimalFromFraction: the same limit on `str` of the coefficient.
- ExactText: digits are ASCII; what Python's `isdigit` admits beyond ASCII is not modelled.
- Fractions: the rounded 28-digit output for non-terminating fractions; only that it is taken exactly then.
- Keeper: `selectReady`, `nicr`, `projectedTrove`, chain reorganisations and the protect transaction.
- ZIP bundles, JSON schemas, book reconstruction, `mezo_dex` and `mezo_troves` adapters and Solidity contracts.
