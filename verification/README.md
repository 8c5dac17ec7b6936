# Ledger core, verified

A Dafny model of a double-entry ledger service and of the protocols built on it: posting and reversing
transactions, sharded accounts, the payout saga that moves money through an outside gateway, idempotent
requests, the event projection, paged statements and the canonical JSON that fingerprints a request.
Every database transaction is one atomic guarded step; between two of them any other worker may act and
any worker may vanish. The theorems are about every run of such steps.

`dafny verify dfyconfig.toml` checks the whole project.

## How the files fit together

| file | what it holds |
|---|---|
| `common.dfy`, `int64.dfy` | sums, filters, orders; wrapping 64-bit arithmetic and its overflow guards |
| `ledger_types.dfy`, `posting.dfy` | directions, money, legs; validation, lock order, aggregation, the overdraft check |
| `ledger.dfy`, `ledger_invariants.dfy`, `ledger_effects.dfy`, `ledger_store.dfy` | the tables, posting and reversing as steps, what every run keeps, what a write does told by account type and header, and the service as a class over the tables |
| `consistency.dfy`, `sharding.dfy`, `projection.dfy`, `statement.dfy`, `statement_balance.dfy`, `locking.dfy` | the three checks, logical balances over shards, the event projection, keyset pages and the balances they close at, deadlock freedom |
| `saga_types.dfy`, `saga_store.dfy`, `gateway.dfy`, `payout.dfy`, `orchestrator.dfy` | saga statuses and tables, the gateway's three-valued answer, the payout protocol as events, and the orchestrator's bookkeeping as methods proved to be those events |
| `payout_books.dfy`, `payout_safety.dfy`, `payout_net.dfy`, `payout_suspense.dfy`, `payout_gateway.dfy`, `payout_verdict.dfy`, `payout_budget.dfy`, `payout_progress.dfy`, `payout_drives.dfy`, `payout_rounds.dfy`, `payout_failures.dfy`, `payout_runs.dfy`, `payout_completion.dfy` | what the payout protocol guarantees on the books, account by account, in suspense, towards the gateway, about its verdicts, its refusals and about ending, and runs for what it does not |
| `idempotency.dfy`, `idempotency_protocol.dfy`, `idempotency_responses.dfy` | idempotency records, the manager and its cache; the racing-requests protocol; whose response a record stores |
| `utf16_order.dfy`, `canonical_number.dfy`, `canonical_json.dfy`, `canonical_document.dfy` | canonical JSON: key order, number layouts, printing and reading back, parsing and the writers |

Protocols are total functions `Apply(world, event)` that leave the world alone when a guard fails, and a
run is a sequence of events, so a statement about `Play(...)` is a statement about every interleaving.
UUIDs are natural numbers with the nil UUID as zero; `Locking.UuidTextOrder` shows that their text order,
byte order and numeric order are one order. Saga and attempt ids are row positions.

Where the code does less than a comment says, the model follows the code:

- The comment on `PendingDelta` equates suspense's pending amount with the amounts of all non-terminal
  sagas. PENDING sagas hold nothing and NEEDS_MANUAL_REVIEW sagas still hold: `PayoutSuspense.PendingEquation`
  gives the exact condition and `PayoutSuspense.PendingEquationFails` a run.
- A GATEWAY_FAILED saga may have been paid: a denial is only safe to act on when nothing is travelling and
  nobody is about to send. `PayoutVerdict.DenialWrongIff` is the exact condition, `PayoutVerdict.FailureMeansUnpaid`
  the promise under it, and `PayoutRuns.LateArrivalPaysFailedSaga` and `PayoutRuns.StalledSenderPaysFailedSaga`
  are runs for the two ways it fails.
- A paid saga may compensate (`PayoutRuns.PaidSagaCompensates`); its closed gateway attempt tells
  (`PayoutVerdict.AuditRowTellsPayment`).
- Leases are not mutual exclusion. A stale writer can lower the retry count: `PayoutProgress.WriteSpendsIff` says
  exactly which writes do not spend, `PayoutRuns.StaleWriterRefundsBudget` is a run. And a stale release or sweep lets a
  record store another fingerprint's response: `IdempotencyResponses.RemovalMixesIff` is the exact condition,
  `IdempotencyResponses.StaleReleaseMixesResponses` the runs.
- A sweep matches on the key alone, so it can delete another principal's live record: `Idempotency.SweepTakesLiveIff`
  is the exact condition on the table, `IdempotencyProtocol.SweepForgetsLiveRecord` a run.

What the theorems take from their surroundings:

- Payouts: the ledger's other users post and reverse freely but never reverse a saga's own transactions and
  never use a saga's keys; the gateway answers truthfully and keeps its records, while requests and answers
  may be lost or late. The suspense results add an unsharded credit-normal account that starts empty and is
  named in the suspense role only.
- Ending: one driver per saga at a time, which is what leases are for, or writes that all count; drivers may
  still crash and commits may still go unanswered.
- Idempotency: one clock. The cache and expiry results add one owner per key, since a sweep matches on keys.
- Locks: advisory locks are off, as they are by default.

## Model

| member | source | states |
|---|---|---|
| Int64.Wrap | internal/ledger/money.go:278-297 | Go's signed overflow: exact in range, off by one modulus outside it, congruent always |
| Int64.AddInt64 | internal/ledger/money.go:278-284 | the guard on the wrapped sum accepts exactly the sums that fit, and returns the true sum |
| Int64.SubInt64 | internal/ledger/money.go:291-297 | the guard on the wrapped difference accepts exactly the differences that fit |
| LedgerTypes.CurrencyIsThreeLetters | internal/ledger/money.go:12-15 | a currency is valid exactly when it is three upper-case letters |
| LedgerTypes.Add | internal/ledger/money.go:113-123 | succeeds exactly for equal currencies and a sum that fits; overflow is reported as such |
| LedgerTypes.SignedAmount | internal/ledger/types.go:242-257 | accepts exactly proper directions and a positive amount, and then is the leg's effect on its account |
| LedgerTypes.MirrorNegates | internal/ledger/service.go:571-590 | mirrored legs have the opposite net effect on every account, however often it is named |
| LedgerTypes.MirrorInvolutive | internal/ledger/types.go:30-35 | mirroring twice restores the legs themselves |
| Posting.Validate | internal/ledger/service.go:782-838 | accepts exactly known types with two or more proper legs in one currency whose ideal totals are equal and fit; the refusal names a check that fails, the first one for an unknown type or too few legs |
| Posting.CheckEntry | internal/ledger/service.go:782-838 | passes exactly a proper leg in the request's currency, and otherwise names what is wrong with it |
| Posting.AcceptedBalances | internal/ledger/service.go:782-838 | accepted legs sum to zero in every currency |
| Posting.SortedAccountIds | internal/ledger/service.go:873-888 | the touched accounts, each once, in ascending order |
| Posting.AccountsInOrder | internal/ledger/service.go:873-888 | strictly ascending and exactly the touched accounts |
| Posting.Aggregate | internal/ledger/service.go:1011-1040 | succeeds exactly when every running per-account total fits, and then holds each account's ideal net effect |
| Posting.MoveBalances | internal/ledger/service.go:1037-1070 | succeeds exactly when every account can afford its delta, moves exactly those rows once and reports each; a refusal names an account that overflows or would be overdrawn |
| Posting.ApplyEntries | internal/ledger/service.go:1011-1070 | succeeds exactly when every partial total and new balance fits and nothing is overdrawn, then applies the ideal deltas; a refusal is a true overflow or a true shortage |
| Posting.ValidatedPartialsFit | internal/ledger/service.go:1011-1035 | a validated request can never overflow a running total |
| Ledger.RouteToShards | internal/ledger/service.go:913-944 | one active shard for each sharded account of the request, used for all its legs, and no other rewriting |
| Ledger.RoutesToOpenShard | internal/ledger/service.go:913-944 | a leg goes to an open shard of the account it names, and stays where it is only if there is none |
| Ledger.RoutingKeepsAcceptance | internal/ledger/service.go:913-944 | routing keeps a request valid |
| LedgerStore.LockAndValidate | internal/ledger/service.go:948-980 | succeeds exactly when every account exists, is active and holds the leg's currency; an error names a fact that holds |
| LedgerStore.WriteTransaction | internal/ledger/service.go:381-435 | succeeds exactly when the accounts admit the legs and the key is free, and then yields the committed tables; a refusal states a fault the tables show |
| LedgerStore.Store.PostTransaction | internal/ledger/service.go:349-447 | succeeds exactly when a post is possible under the chosen routing; then the tables are the posted ones, otherwise untouched and the error is a fault of the request or of the tables as they stood; keeps the ledger invariant |
| LedgerStore.Store.ReverseTransaction | internal/ledger/service.go:536-663 | succeeds exactly when a reversal is possible; then the tables are the reversed ones, otherwise untouched and the error is a fault they show; a second reversal is refused as such |
| LedgerInvariants.LegsAfterCommit | internal/ledger/pgledger/repository.go:963-1030 | a new transaction reads back as its own legs and every older one unchanged |
| LedgerInvariants.MirrorAccepted | internal/ledger/service.go:571-590 | the mirror of a valid transaction is valid |
| LedgerInvariants.CommitKeepsNoDrift | internal/ledger/service.go:1011-1070 | stored and journal balances move together on every account |
| LedgerInvariants.CommitKeepsBalanced | internal/ledger/service.go:349-447 | every currency's journal keeps summing to zero |
| LedgerInvariants.CommitKeepsVersions | internal/ledger/pgledger/repository.go:1038-1090 | a balance's version keeps counting the transactions that touched the account |
| LedgerInvariants.CommitKeepsStreams | internal/ledger/service.go:1111-1170 | each account's events keep carrying versions 1, 2, 3, ... ending at its current balance |
| LedgerInvariants.ReverseKeepsReversals | internal/ledger/pgledger/repository.go:1092-1174 | a transaction stays REVERSED exactly when one reversal names it, and that reversal is its mirror |
| LedgerInvariants.PostKeepsInv | internal/ledger/service.go:349-447 | a post keeps the whole ledger invariant |
| LedgerInvariants.ReverseKeepsInv | internal/ledger/service.go:536-663 | a reversal keeps the whole ledger invariant |
| LedgerInvariants.HoldKeepsInv | internal/ledger/pgledger/repository.go:1187-1207 | a pending hold keeps the whole ledger invariant |
| LedgerInvariants.RunKeepsInv | internal/ledger/service.go:349-663 | every run of openings, holds, posts and reversals keeps the invariant |
| LedgerInvariants.ReachableInv | internal/ledger/service.go:349-663 | every ledger reachable from the empty one satisfies it |
| LedgerInvariants.ReversalCancels | internal/ledger/service.go:536-663 | in every reachable ledger a transaction and its reversal add to zero on every account |
| LedgerInvariants.ReversedExactly | internal/ledger/pgledger/repository.go:1162-1174 | in every reachable ledger a transaction is REVERSED exactly when a reversal names it, and at most one does |
| LedgerInvariants.ReversingTwiceRestores | internal/ledger/service.go:536-663 | reversing the reversal posts the original legs again, one for one |
| LedgerInvariants.ReversedOnce | internal/ledger/service.go:558-565 | a reachable ledger refuses a second reversal whatever ids, clock or key it carries |
| LedgerEffects.PostByType | internal/ledger/types.go:68-75 | a committed post moves an asset or expense by its debits less its credits, and a liability, equity or revenue account by its credits less its debits |
| LedgerEffects.ReverseByType | internal/ledger/service.go:571-590 | a committed reversal moves every account by the original's debits and credits exchanged, as its type counts them |
| LedgerEffects.BalanceByType | internal/ledger/types.go:68-75 | in every reachable ledger a stored balance is the debits and credits journaled on the account, as its type counts them |
| LedgerEffects.InactiveNeverMoves | internal/ledger/service.go:948-980 | while an account is frozen or closed no write moves its balance or version |
| LedgerEffects.FrozenRefuses | internal/ledger/service.go:948-980 | taking an account out of service makes the ledger refuse every post that would reach it |
| LedgerEffects.RunKeepsAccount | internal/ledger/service.go:215-288 | an account keeps its type, currency, parent and overdraft leave through every run |
| LedgerEffects.OpenedNeverOverdrawn | internal/ledger/service.go:1037-1060 | an account opened without overdraft leave starts empty and is never below zero, whatever happens later |
| LedgerEffects.RunKeepsHolds | internal/ledger/pgledger/repository.go:1187-1207 | no run takes a pending amount below zero |
| LedgerEffects.HoldTaken | internal/ledger/pgledger/repository.go:1187-1207 | a hold is taken exactly when the row exists and its pending amount stays a non-negative int64 |
| LedgerEffects.PostHeader | internal/ledger/pgledger/repository.go:933-956 | a post adds one header under its own type, principal, key and mark, and changes no other |
| LedgerEffects.ReverseHeader | internal/ledger/service.go:591-663 | a reversal is recorded as one, names the original, and changes nothing of it but its status |
| LedgerEffects.RunTells | internal/ledger/service.go:1111-1170 | over every run an event is a reversal event exactly when its transaction reverses another |
| Consistency.CheckGlobalInvariant | internal/consistency/invariant.go:49-74 | reports exactly the currencies whose journal does not sum to zero |
| Consistency.CheckProjectionDrift | internal/consistency/drift.go:65-109 | reports exactly the accounts whose stored balance is not the journal's |
| Consistency.CheckOrphans | internal/consistency/orphans.go:52-105 | reports exactly the settled transactions with fewer than two entries and the entries without a header |
| Consistency.ChecksAlwaysClean | internal/consistency/invariant.go:49-74 | in every reachable ledger all three checks come back empty |
| Consistency.AccountingEquation | internal/consistency/drift.go:65-109 | in every reachable ledger debit-normal and credit-normal balances are equal per currency |
| Consistency.BooksBalance | internal/ledger/types.go:68-75 | in every reachable ledger assets and expenses equal liabilities, equity and revenue per currency |
| Consistency.ViolationShows | internal/consistency/invariant.go:49-74 | one more entry on a balanced journal puts exactly its currency out of balance |
| Consistency.DriftShows | internal/consistency/drift.go:65-109 | corrupting one stored balance of a clean ledger makes exactly that account drift |
| Consistency.FewShows | internal/consistency/orphans.go:52-105 | leaving a settled transaction one entry or none makes exactly that transaction short |
| Consistency.OrphansShow | internal/consistency/orphans.go:52-105 | deleting a header makes exactly its entries orphans |
| Sharding.GetBalance | internal/ledger/pgledger/repository.go:208-241 | reads the logical balance, pending amount and version: the account's row plus all its shards', in any order; refuses exactly unknown accounts |
| Sharding.HoldMovesPending | internal/ledger/pgledger/repository.go:1187-1207 | a hold on any row of a family moves the family's pending amount by just that, and neither its balance nor its version |
| Sharding.WritesKeepPending | internal/ledger/service.go:349-663 | posts and reversals move no pending amount |
| Sharding.UnshardedReadsItsRow | internal/ledger/pgledger/repository.go:208-241 | an account without shards reads as its own row |
| Sharding.RoutedPostIsLogical | internal/ledger/service.go:913-944 | a routed post moves each logical balance as the unrouted post would and its version by one per logical account touched |
| Sharding.ShardsNeverOverdrawn | internal/ledger/service.go:1037-1060 | if no row may go negative, no logical balance is ever negative |
| Projection.Projector.Apply | internal/projector/apply.go:79-143 | applies an event once by id, changes a row only together with its version and upwards; unknown event types change nothing |
| Projection.DeliveryConverges | internal/projector/apply.go:79-143 | any order and any duplication of the same events gives the same rows, with or without the processed-events table |
| Projection.RowIsHighestDelivered | internal/projector/apply.go:129-143 | a row holds the balance of the highest version delivered for its account |
| Projection.Rebuild | internal/projector/rebuild.go:72-122 | compares exactly the accounts in scope and reports exactly the mismatches with the journal |
| Projection.FullDeliveryMatchesJournal | internal/projector/rebuild.go:72-122 | once every event of a reachable ledger has arrived, each projected balance is the journal's |
| Projection.FullDeliveryRebuildsClean | internal/projector/rebuild.go:72-122 | once every event of a reachable ledger has arrived, a rebuild of any scope reports no mismatch |
| Statement.GetStatement | internal/ledger/pgledger/repository.go:332-487 | refuses a nil or unknown account and an inverted period; otherwise returns the page the period defines |
| Statement.BuildPage | internal/ledger/pgledger/repository.go:403-486 | running balances line by line, the extra row dropped and turned into a cursor |
| Statement.PeriodExact | internal/ledger/pgledger/repository.go:336-345 | starting from the nil id, a period holds exactly the entries stamped from its start to its end |
| Statement.PageCloses | internal/ledger/pgledger/repository.go:467-484 | a page closes at the journal's sum through its last line, or at the balance as of the period's end when it is the last |
| Statement.FirstPageOpens | internal/ledger/pgledger/repository.go:336-364 | without a cursor a page opens at the balance as it stood before the period's first instant |
| Statement.NextPageContinues | internal/ledger/pgledger/repository.go:336-345 | asked for with the cursor a page returned, the next page opens where that one closed and shows the lines that follow |
| Statement.RunningIsJournalSum | internal/ledger/pgledger/repository.go:377-387 | the running balance beside a line is the journal's sum through that line |
| Statement.WalkComplete | internal/ledger/pgledger/repository.go:281-487 | a finished walk over a journal growing only beyond the cursor lists the period once, in order, and closes at the balance as of its end |
| Statement.WalkListsIff | internal/ledger/pgledger/repository.go:281-487 | on any append-only ledger a finished walk closes at the balance its last request saw, and lists the period as that request saw it exactly when no entry was added to a stretch already read |
| Statement.PagesMeet | internal/ledger/pgledger/repository.go:357-364 | each page opens where the page before it closed |
| Statement.WalkEnds | internal/ledger/pgledger/repository.go:467-474 | however the journal grows beyond the cursor, a walk whose requests can hold the period ends, and one that uses all its requests ends exactly when they can hold it |
| StatementBalance.AsOfIsBalance | internal/ledger/pgledger/repository.go:281-323 | in every reachable ledger with mirrored shards, the balance as of an instant after the last entry is the balance a read returns |
| StatementBalance.WalkCloses | internal/ledger/pgledger/repository.go:281-487 | however the ledger changes between requests, a finished walk closes at the balance as of its end that its last request saw |
| StatementBalance.StatementClosesAtBalance | internal/ledger/pgledger/repository.go:332-487 | a finished walk to an instant after the last entry closes at what a balance read returns |
| StatementBalance.AsOfAfterPost | internal/ledger/pgledger/repository.go:281-323 | a post moves the balances as of its stamp and later by its debits and credits as the account's type counts them, and no earlier one |
| StatementBalance.PostIsListed | internal/ledger/pgledger/repository.go:332-487 | a posted leg is listed by exactly the statements of its account whose period holds its stamp |
| Locking.PlanClimbs | internal/ledger/pgledger/repository.go:866-902 | every transaction takes its locks in ascending global rank, whatever accounts it names |
| Locking.PlanCovers | internal/ledger/service.go:349-663 | a transaction locks the account and balance rows of every account it touches, the header, key, saga and idempotency rows it names, and nothing else |
| Locking.NeverCyclic | internal/ledger/service.go:546-553 | in every reachable state the wait-for graph has no cycle of any length |
| Locking.AlwaysProgress | internal/ledger/service.go:873-888 | in every reachable state with work in flight some transaction is not blocked |
| Locking.UuidTextOrder | internal/ledger/service.go:873-888 | ordering UUIDs by text, by bytes or as integers is the same order |
| SagaTypes.ReachesFurther | internal/saga/status.go:1-90 | status writes compose and a changing write raises the rank |
| SagaStore.Store.Create | internal/saga/pgsaga/store.go:79-110 | inserts one PENDING row, or returns the row the principal's key already names |
| SagaStore.Store.Advance | internal/saga/pgsaga/tx.go:78-99 | moves the row exactly when its status is the one the writer saw, and otherwise changes nothing |
| SagaStore.Store.InsertAndAdvance | internal/saga/pgsaga/tx.go:41-58 | attempt row and status move together or not at all |
| SagaStore.Store.RecordAttempt | internal/saga/pgsaga/store.go:284-299 | inserts exactly when the attempt number is unused |
| SagaStore.Store.Escalate | internal/saga/pgsaga/store.go:309-330 | the alert and the status commit together or not at all |
| SagaStore.Store.FinishAttempt | internal/saga/pgsaga/store.go:337-351 | closes only an open attempt |
| SagaStore.Store.UnresolvedAttempt | internal/saga/pgsaga/store.go:354-376 | the newest open attempt of the step, or none if none is open |
| SagaStore.Store.NextAttemptNumber | internal/saga/pgsaga/store.go:400-414 | one above the highest number used |
| SagaStore.NextNumberFree | internal/saga/pgsaga/store.go:400-414 | the number just read is never a duplicate |
| SagaStore.Store.ReserveTransactionId | internal/saga/payout/run.go:358-370 | the transaction the first succeeded reserve attempt committed |
| SagaStore.FirstCommittedSnoc | internal/saga/payout/run.go:358-370 | appending a row never changes which transaction was found, and finds the first one committed |
| SagaStore.FirstCommittedFinished | internal/saga/pgsaga/store.go:337-351 | closing an attempt never changes which transaction was found |
| Gateway.OpinionExact | internal/gateway/client.go:103-169 | success is read from exactly a 200 or 201 saying SUCCEEDED, failure from exactly a stated FAILED, 404, 400 or 422, and a nil error always carries a succeeded payment |
| Gateway.HonestKept | internal/gateway/gateway.go:65-112 | payments come only from submissions, the first arrival under a key decides it, a recorded payment never changes, and only an arrival or a loss ends a submission's travel |
| Orchestrator.SagaDriver.FailForwardStep | internal/saga/payout/steps.go:450-522 | notes the failed attempt unless that write is lost, then makes exactly the protocol's move: retry, fail, or turn to compensation; succeeds exactly when the guard held |
| Orchestrator.SagaDriver.FailCompensation | internal/saga/payout/steps.go:530-579 | notes the failed attempt unless that write is lost, then retries or escalates exactly as the protocol's move |
| Orchestrator.SagaDriver.DeferAmbiguity | internal/saga/payout/steps.go:225-262 | keeps the saga waiting or, its probes spent, escalates it, exactly as the protocol's move |
| Orchestrator.SagaDriver.SettleGatewayOutcome | internal/saga/payout/steps.go:165-217 | closes the attempt and moves the status exactly as the verdict says, and closes nothing when nothing is known |
| Orchestrator.SagaDriver.BeginGatewayCall | internal/saga/payout/steps.go:90-115 | succeeds exactly on a reserved saga and then leaves an open attempt and GATEWAY_PENDING together; never refused as a duplicate |
| Orchestrator.SagaDriver.ConfirmCompensated | internal/saga/payout/steps.go:422-440 | leaves a compensated saga alone and escalates any other from the status it read |
| PayoutBooks.AdvanceKeepsLinks | internal/saga/pgsaga/tx.go:78-99 | a status move between statuses with the same books leaves every saga's books right |
| PayoutBooks.OwnAfterReserve | internal/saga/payout/steps.go:29-76 | committing the reserve puts exactly its legs on the saga's books |
| PayoutBooks.OwnAfterSettle | internal/saga/payout/steps.go:265-340 | committing the settle adds exactly its legs to the saga's books |
| PayoutBooks.OwnAfterRefund | internal/saga/payout/steps.go:352-414 | committing the compensation reverses exactly the reserve |
| PayoutBooks.PostLinks | internal/saga/payout/run.go:261-312 | a committed step leaves every other saga's books alone |
| PayoutBooks.OutsideKeepsLinks | internal/ledger/service.go:349-663 | other users' postings and reversals leave every saga's books alone |
| PayoutSafety.WriteLegal | internal/saga/payout/steps.go:165-262 | whatever a stale driver writes is an edge of the state machine and changes no money |
| PayoutSafety.ApplyRuns | internal/saga/payout/steps.go:29-414 | whatever a saga event does to the ledger is a run of ordinary ledger writes |
| PayoutSafety.PlaySound | internal/saga/payout/run.go:166-240 | every event of every interleaving keeps the ledger invariant, all sagas' books and all drivers' beliefs |
| PayoutSafety.ApplyGrows | internal/saga/pgsaga/tx.go:78-99 | no event removes a row, moves a status against the machine or uncommits a reserve |
| PayoutSafety.BooksFollowStatus | internal/saga/payout/steps.go:29-414 | in every reachable world a saga's transactions and their legs are a function of its status: none, reserve, reserve and settle, or reserve and mirror |
| PayoutSafety.AlwaysSomethingToReverse | internal/saga/payout/steps.go:352-370 | the branch for a compensation with nothing posted is never reached |
| PayoutSafety.FailureIsNeutral | internal/saga/status.go:50-62 | a failed or compensated saga has moved nothing on any account, net |
| PayoutSafety.PayoutsKeepChecksClean | internal/consistency/drift.go:65-109 | however sagas interleave the three consistency checks stay clean |
| PayoutSafety.ClientsAreServed | internal/saga/payout/run.go:166-240 | whatever clients post, reverse, open, close or hold takes effect between saga steps as it would without them |
| PayoutSafety.StartIsGuarded | internal/saga/payout/payout.go:68-87 | a payout that names too little, or whose fee eats the amount, starts nothing; any other starts as one PENDING saga |
| PayoutSafety.CrashTakesOnlyItsDriver | internal/saga/payout/run.go:160-240 | a crash takes its driver away and nothing else, and the saga may be claimed anew |
| PayoutSafety.ClaimStartsDriver | internal/saga/payout/run.go:166-240 | a claim starts a driver on the row as it is and disturbs no driver at work |
| PayoutNet.NetByStatus | internal/saga/payout/steps.go:29-414 | in every reachable world a saga has, net, parked its amount, paid amount less fee to the merchant and fee to revenue, or moved nothing, and touched no other account |
| PayoutNet.RoutedCredit | internal/ledger/service.go:913-944 | wherever among the shards the legs went, the account's family feels what the account was asked to feel |
| PayoutSuspense.RoutedShare | internal/ledger/service.go:913-944 | routing neither sends a leg to an unsharded suspense account nor takes one from it |
| PayoutSuspense.LedgerStepKept | internal/saga/payout/steps.go:47-57 | each ledger step moves suspense and its hold by exactly what its status change says |
| PayoutSuspense.SuspenseExact | internal/saga/payout/steps.go:29-414 | in every reachable world suspense's available and pending amounts are both the sum of the holding sagas' amounts |
| PayoutSuspense.SuspenseReads | internal/ledger/pgledger/repository.go:208-241 | so a balance read of suspense returns the sum of the holding sagas' amounts, as available and as pending |
| PayoutSuspense.NewAccountIsVault | internal/ledger/service.go:215-288 | any newly opened credit-normal account that is no shard meets the suspense assumptions |
| PayoutSuspense.SuspenseCovers | internal/saga/payout/steps.go:273-312 | so a settle or a refund is never short of funds in suspense and its hold can be released |
| PayoutSuspense.PendingEquation | internal/ledger/ports.go:206-230 | the documented pending equation holds exactly when PENDING and NEEDS_MANUAL_REVIEW amounts are equal |
| PayoutSuspense.PendingEquationFails | internal/ledger/ports.go:218-221 | starting one saga already breaks the documented equation |
| PayoutGateway.WriteBacked | internal/saga/payout/steps.go:165-217 | a status written from an answer claims no more than the gateway said |
| PayoutGateway.BegunReliable | internal/saga/payout/steps.go:90-125 | committing the intent makes its driver the only one about to submit |
| PayoutGateway.PlayReliable | internal/saga/payout/steps.go:90-262 | every event of every interleaving keeps statuses, beliefs, submissions and alerts supported |
| PayoutGateway.SuccessMeansPaid | internal/saga/payout/steps.go:177-190 | GATEWAY_SUCCEEDED or COMPLETED implies a successful payment under the saga's key |
| PayoutGateway.PaysAtMostOnce | internal/saga/payout/steps.go:90-125 | Pay is called at most once per saga, and every payment has its intent row and a status past it |
| PayoutGateway.AlertsExact | internal/saga/pgsaga/store.go:309-330 | a saga awaits a person exactly when an alert was raised for it |
| PayoutGateway.UnknownDecidesNothing | internal/saga/payout/steps.go:225-262 | an unknown answer moves no money and either keeps the saga waiting or, its probes spent, escalates it |
| PayoutVerdict.PlayShut | internal/saga/payout/steps.go:90-212 | a saga past its intent, unpaid, with nothing travelling and nobody about to send, is never paid in any continuation |
| PayoutVerdict.FailureMeansUnpaid | internal/saga/payout/steps.go:192-212 | if every denial of the saga's key came with every submission recorded or lost and none to come, GATEWAY_FAILED implies no payment |
| PayoutVerdict.DenialWrongIff | internal/saga/payout/steps.go:136-212 | after a denial in any reachable world the saga can still be paid, and end GATEWAY_FAILED and paid, exactly when a submission was travelling or about to be sent |
| PayoutVerdict.StatedFailureIsFinal | internal/saga/payout/steps.go:192-212 | unlike a denial, a stated FAILED is final: whatever is still travelling, the saga is never paid afterwards |
| PayoutVerdict.LostNeverArrives | internal/gateway/gateway.go:65-112 | a lost submission never arrives and changes no record |
| PayoutVerdict.PlayAudited | internal/saga/payout/steps.go:90-212 | every event keeps one gateway attempt per saga, closed before any verdict is written, saying what the gateway said |
| PayoutVerdict.AuditRowTellsPayment | internal/saga/payout/steps.go:165-212 | past the verdict the saga's one gateway attempt is closed; closed SUCCEEDED means paid, and with prompt denials paid means closed SUCCEEDED, in COMPENSATING and COMPENSATED as well |
| PayoutRuns.FundedIsFundable | internal/saga/payout/steps.go:29-76 | two open unsharded accounts with the amount in the wallet are enough for a reserve to post |
| PayoutRuns.SettleAccepted | internal/saga/payout/steps.go:265-340 | the settle legs of any valid payload pass validation, with or without a fee |
| PayoutRuns.LateArrivalPaysFailedSaga | internal/gateway/gateway.go:86-98 | a run: the submission travels while a probe is denied, and arrives as a payment after GATEWAY_FAILED |
| PayoutRuns.StalledSenderPaysFailedSaga | internal/saga/payout/steps.go:96-125 | a run: nothing travels at the probe, but the driver that committed the intent sends after GATEWAY_FAILED and is paid |
| PayoutRuns.PaidSagaCompensates | internal/saga/payout/steps.go:512-521 | a run: the gateway paid and said so, the settle step runs out of attempts, and the saga compensates |
| PayoutRuns.StaleWriterRefundsBudget | internal/saga/payout/steps.go:252-261 | a run: a stalled prober's write lowers the retry count others have raised and hands an attempt back |
| PayoutProgress.WriteSpends | internal/saga/payout/steps.go:225-262 | every status write of an up-to-date driver lowers the saga's remaining budget |
| PayoutProgress.SagaEnds | internal/saga/payout/run.go:166-240 | with one driver per saga at a time, a saga makes at most its budget of status writes and is terminal once they are spent |
| PayoutProgress.WriteSpendsIff | internal/saga/payout/steps.go:225-262 | a landing write from any snapshot spends budget exactly when the saga is unfinished and the write moves the status or the row's retry count is no higher than the snapshot's |
| PayoutProgress.ThriftyRunsEnd | internal/saga/payout/steps.go:225-262 | any interleaving whose landing writes all meet that condition keeps every saga within its budget, leases or not |
| PayoutDrives.WorkLands | internal/saga/payout/steps.go:29-445 | from any unfinished status a claimed saga's step, committed or refused, answered or not, ends in a landed status write with every other driver where it was |
| PayoutRounds.DriveLands | internal/saga/payout/run.go:166-240 | whatever the ledger and the gateway answer, one uninterrupted drive of an unfinished saga lands a status write |
| PayoutRounds.RoundsEnd | internal/saga/payout/run.go:166-240 | as many uninterrupted drives as the budget has writes left, with anything in between, leave the saga in a terminal status |
| PayoutCompletion.HeadersNameTheirSaga | internal/saga/payout/steps.go:29-340 | in every reachable world a saga's transactions are payouts of its own principal, each under the key of its own step, and no other transaction uses such a key |
| PayoutCompletion.StepKeysFree | internal/saga/payout/steps.go:29-340 | a reserve or settle still to be taken finds its key unused, so it is never refused as a duplicate |
| PayoutCompletion.SettleGoesThrough | internal/saga/payout/steps.go:265-340 | in every reachable world with such a suspense account a paid saga whose accounts are in service settles when its driver commits |
| PayoutFailures.ReserveRefusalFails | internal/saga/payout/run.go:433-454 | whatever the ledger can truthfully refuse a reserve with fails a PENDING saga at once, however many attempts it has left |
| PayoutFailures.SettleRefusalCompensates | internal/saga/payout/steps.go:450-522 | whatever it can truthfully refuse a settle with turns a GATEWAY_SUCCEEDED saga to COMPENSATING at once |
| PayoutFailures.TransientCostsAnAttempt | internal/saga/payout/steps.go:450-522 | a lost race, a lost connection or a version conflict keeps the status and costs one attempt, until the attempts are spent |
| PayoutFailures.CompensationCostsAnAttempt | internal/saga/payout/steps.go:530-579 | every failed compensation costs one attempt, and the last one raises an alert |
| PayoutFailures.VerdictMoves | internal/saga/payout/steps.go:165-262 | success and failure move the saga on with a fresh count; silence costs a probe, and the last one raises an alert |
| PayoutFailures.NothingToReverseCompensates | internal/saga/payout/steps.go:352-370 | a compensation with nothing posted ends in COMPENSATED at once |
| PayoutFailures.ProgressStartsAfresh | internal/saga/payout/steps.go:29-414 | a saga that gets on to a new status starts its attempts there from zero |
| Idempotency.Resolve | internal/idempotency/store.go:202-263 | says exactly when a record is replayed, taken over, in conflict, corrupt, expired or busy |
| Idempotency.ReservedDecides | internal/idempotency/pgidem/store.go:60-79 | once reserved, a key's own fingerprint waits for the lease, may then take over, and is refused after expiry; any other conflicts throughout |
| Idempotency.FinishedRetells | internal/idempotency/pgidem/store.go:171-278 | however a record was finished, its own fingerprint is replayed the very response it was finished with, until it expires |
| Idempotency.SweepTakesLiveIff | internal/idempotency/pgidem/store.go:219-237 | some batch of overdue rows deletes a live record exactly when some key has both an overdue record and a live one |
| IdempotencyProtocol.SweepForgetsLiveRecord | internal/idempotency/pgidem/store.go:223-232 | a run: one principal's record expires, another's under the same key is finished and live, and a sweep deletes it |
| Idempotency.CacheKeyInjective | internal/idempotency/store.go:303-312 | two slots never share a cache key |
| Idempotency.Store.Reserve | internal/idempotency/pgidem/store.go:60-79 | wins exactly when the slot is free |
| Idempotency.Store.Reclaim | internal/idempotency/pgidem/store.go:148-163 | wins exactly an open row with a dead lease, and the next reclaimer is shut out exactly until the new lease or the record ends |
| Idempotency.Store.Fail | internal/idempotency/pgidem/store.go:171-187 | records a rejection exactly on an open row |
| Idempotency.Store.Release | internal/idempotency/pgidem/store.go:197-208 | never removes a finished record |
| Idempotency.Store.Sweep | internal/idempotency/pgidem/store.go:219-237 | picks up to a batch of unlocked rows past their expiry, earliest first and all of them if the batch allows, and deletes by their keys |
| Idempotency.Store.Complete | internal/idempotency/pgidem/store.go:262-278 | completes exactly an open row |
| Idempotency.Manager.Acquire | internal/idempotency/store.go:158-199 | whatever the cache holds or fails to return, the decision and the table are what the table alone implies; exactly a replayed record is put in the cache |
| Idempotency.Manager.ResolveExisting | internal/idempotency/store.go:202-263 | decides from the record as the table would and caches exactly a replayed one |
| Idempotency.RequestState.Reject | internal/http/idempotency.go:203-230 | a settled request changes nothing; otherwise fails or releases, never touching a finished record |
| IdempotencyProtocol.StepLogs | internal/ledger/pgledger/repository.go:933-960 | a committed write adds one header under its principal and key and one event, and rewrites no other's |
| IdempotencyProtocol.FinishesTruthful | internal/ledger/service.go:430-477 | completing inside the ledger transaction makes the record name exactly that transaction |
| IdempotencyProtocol.CommitsAtMostOnce | internal/ledger/pgledger/repository.go:1267-1277 | over every interleaving at most one transaction commits per principal and key |
| IdempotencyProtocol.RecordsTellTheTruth | internal/idempotency/pgidem/store.go:148-278 | a COMPLETED row names the transaction; any other row means none committed since it was inserted |
| IdempotencyProtocol.CacheDecidesLikeTable | internal/idempotency/store.go:158-199 | over every run with one owner per key, a cache hit decides what the table would at that moment |
| IdempotencyProtocol.ResponseNeverChanges | internal/idempotency/store.go:73-84 | a finished record's response never changes before it expires |
| IdempotencyResponses.FinishedIsRetold | internal/idempotency/pgidem/store.go:171-278 | over every run with one owner per key, what a commit or a stored refusal finished a record with is what its fingerprint is replayed until it expires |
| IdempotencyResponses.AskingIsAnswered | internal/idempotency/store.go:158-199 | a request that asks, uninterrupted, is answered what the table decides and changes no table; a replay fills the cache and nothing else does |
| IdempotencyResponses.CrashLeavesRecords | internal/idempotency/store.go:158-199 | a handler that dies leaves the tables, the cache and every other request as they are |
| IdempotencyResponses.LostAnswerKeepsRecord | internal/http/idempotency.go:203-230 | a commit whose answer is lost has committed, and its handler cannot undo the record by giving up |
| IdempotencyResponses.HoldingIsWon | internal/idempotency/store.go:158-263 | a request comes to hold a key only by inserting its record or by taking over one whose lease has run out |
| IdempotencyResponses.KeylessWritesLand | internal/ledger/service.go:349-663 | a write without a client's key passes the records by and takes effect as ever |
| IdempotencyResponses.RequestFaultIsStored | internal/http/problem.go:201-222 | a refusal that the request itself deserves is stored under its key |
| IdempotencyResponses.LastingFaultIsStored | internal/http/problem.go:201-222 | so is a malformed body, a wrong currency or a reversal that cannot be made |
| IdempotencyResponses.WorldFaultFreesKey | internal/http/problem.go:201-222 | a failure the next minute may undo deletes the reservation and nothing else |
| IdempotencyProtocol.LeasesEndInTime | internal/idempotency/pgidem/store.go:145-157 | however often a record is taken over, its lease never outlives it |
| IdempotencyResponses.FinishMatchesIff | internal/idempotency/pgidem/store.go:171-278 | whatever finishes a record, a commit or a stored refusal, is a holder's, and leaves it its own fingerprint's response exactly when the holder's fingerprint is the record's |
| IdempotencyResponses.RecordsOwnTheirResponses | internal/idempotency/pgidem/store.go:148-278 | on every run that never deletes the slot's row under another request's claim, a finished record stores its own fingerprint's response |
| IdempotencyResponses.ReplaysOwnWork | internal/idempotency/store.go:202-263 | on such runs whatever a request is replayed, from the table or the cache, is work done for its own fingerprint |
| IdempotencyResponses.RemovalMixesIff | internal/idempotency/pgidem/store.go:197-237 | a delete opens the way to a record with another fingerprint's response exactly when another request holds, is taking over or may still take over the record |
| IdempotencyResponses.StaleReleaseMixesResponses | internal/idempotency/pgidem/store.go:201-203 | runs in which a late release makes a record store another fingerprint's response, by a commit and by a refusal |
| Utf16Order.LessUtf16 | internal/idempotency/canonical.go:205-213 | the loop decides the order of UTF-16 code units |
| Utf16Order.LessTotal | internal/idempotency/canonical.go:205-213 | that order is a strict total order on strings |
| Utf16Order.LessTransitive | internal/idempotency/canonical.go:205-213 | that order is transitive |
| Utf16Order.SurrogatesSortLow | internal/idempotency/canonical.go:180-185 | a supplementary character sorts below U+E000 |
| Utf16Order.SurrogatePair | internal/idempotency/canonical.go:205-213 | a supplementary character is its high and low surrogate, which give its code point back |
| Utf16Order.SortCanonical | internal/idempotency/canonical.go:177-188 | sorting forgets the order the keys came in |
| CanonicalNumber.LayoutBack | internal/idempotency/canonical.go:310-333 | each of the four layouts reads back as its own whole, fraction and exponent |
| CanonicalNumber.LayoutsDenote | internal/idempotency/canonical.go:303-333 | every layout denotes the digits times ten to the power n - k |
| CanonicalNumber.ExponentExactlyWhen | internal/idempotency/canonical.go:310-333 | an exponent is written exactly for values of at least 10^21 or below 10^-6 |
| CanonicalNumber.ExponentSigned | internal/idempotency/canonical.go:323-333 | an exponent always carries its sign |
| CanonicalNumber.ReadNumberBack | internal/idempotency/canonical.go:270-335 | a printed number reads back as itself whatever follows it in a document |
| CanonicalNumber.NumberTextInjective | internal/idempotency/canonical.go:270-335 | distinct numbers never print alike |
| CanonicalJson.CharsBack | internal/idempotency/canonical.go:223-255 | an escaped string ends where it says it ends and reads back as itself |
| CanonicalJson.EscapeShortest | internal/idempotency/canonical.go:215-255 | no spelling of a character in a JSON string, raw, short escape or four-digit escapes, is shorter than the one written |
| CanonicalJson.EscapeIsLower | internal/idempotency/canonical.go:240-249 | escapes are written in lower case |
| CanonicalJson.ReadPrint | internal/idempotency/canonical.go:143-203 | reading printed text gives the value back with members in key order and stops where the text stops |
| CanonicalJson.PrintCanon | internal/idempotency/canonical.go:176-203 | putting members in key order changes no text |
| CanonicalJson.SameTextIffSameValue | internal/idempotency/canonical.go:143-203 | two values print alike exactly when they are equal up to member order at every depth |
| CanonicalJson.CanonicalIsFixed | internal/idempotency/canonical.go:39-64 | canonicalising canonical text changes nothing |
| CanonicalDocument.ParseTokens | internal/idempotency/canonical.go:82-141 | the parser gives back every value without duplicate member names |
| CanonicalDocument.ParsedExactly | internal/idempotency/canonical.go:82-141 | what was parsed is what was there, and names no member twice |
| CanonicalDocument.AcceptedExactly | internal/idempotency/canonical.go:39-64 | a document is accepted exactly when it is empty or one value without duplicate names |
| CanonicalDocument.SameTextIffSameDocument | internal/idempotency/canonical.go:39-64 | accepted documents share their canonical text exactly when they are the same document |
| CanonicalDocument.Writer.WriteValue | internal/idempotency/canonical.go:143-174 | appends exactly the value's text to the buffer |
| CanonicalDocument.Writer.WriteObject | internal/idempotency/canonical.go:176-203 | appends the members in key order, each value looked up under its name |
| CanonicalDocument.Writer.WriteString | internal/idempotency/canonical.go:223-255 | appends the string quoted with the shortest escapes |
| CanonicalDocument.Writer.WriteNumber | internal/idempotency/canonical.go:270-335 | appends the number in its one layout |

## Left out

- PostgreSQL, pgx and SQL planning: each statement or transaction is one atomic guarded step; unique keys, checks and rollback are taken as given.
- The ledger steps of the orchestrator (reserve, settle, compensate) and its claim loop: modelled as atomic events over values, since money, hold, audit row and status commit in one transaction; update in place of several objects at once is not captured there.
- Leases, deadlines and the claim queries of sagas: a claim is allowed at any time, which includes every run the leases allow.
- current_step, last_error and timestamps of saga rows, last_entry_id of balances, metadata beyond who posted a transaction: no decision reads them.
- SagaStore.Store.Advance: does not model the current_step, step_deadline_at, last_error and lease columns the same statement sets, because no guard of a later write reads them and a claim is allowed at any time.
- SagaStepCompleted and BalanceUpdated events, metrics, logging, tracing.
- Advisory locks, nested sharding, sharded suspense accounts: outside the stated assumptions.
- The row locks a foreign-key check takes and PostgreSQL's own deadlock detector: not part of the lock model.
- Kafka, Debezium and offset commits: delivery is an arbitrary sequence of the outbox's events.
- JSON lexing, UTF-8 encoding, float parsing and shortest digits, SHA-256: the parser reads tokens, text is Unicode scalars, numbers arrive as normalised digits.
- The 64-bit range of statement and as-of sums: these are sums over the journal, unbounded here.
- HTTP routing, authentication, reconciliation, retry policy, configuration, command-line tools and the web interface.
