# Settlement rail: verification

This project models the stablecoin settlement rail and proves properties of the model with Dafny 4.11.
Check everything with `dafny verify dfyconfig.toml`.

The rail takes payout instructions, screens them, sends each one as a token transfer from a single
operator wallet, watches the chain until the transfer is deep enough, books it in an append-only
double-entry ledger, reconciles ledger and chain, and ships status events to a broker. Beside it stands
an escrow contract for delivery versus payment.

## How it is built

- **The settlement engine** (`Engine.dfy` on `Rail.dfy`, `Chain.dfy`, `SettlementState.dfy`, `Books.dfy`) is one
  transition system: create requests, the queue worker with its local nonce, the stuck-transaction sweep,
  restart recovery, the receipt listener, the chain and its mempool, crashes and restarts. A step is the
  code between two awaits. A run is any sequence of steps, so every theorem about runs covers every
  interleaving. `SendSafety`, `Permanence`, `AuditTrail`, `CreateOnce`, `Screening`, `Nonces`, `StaleAnswers`,
  `Solvency`, `BalanceChecks`, `Reconcile`, `FeeBound` and `FeePolicy` hold the theorems; `SharedTransaction` and `LateBooking` hold the runs that
  break what one would like to be true.
- **The services as classes** (`Services`, `Relayer`, `Listener`, `Reconciler`, `Settlements`) update tables, queue,
  in-flight map and nonce in place, with the source's loops. Each method's contract says its effect equals
  a run of engine steps, or the specification function of one (`Plans`), so the run theorems apply to it. The
  create path and the worker loop let the rest of the system take any steps at their awaits. What a whole job,
  sweep, recovery and poll do to each settlement is stated in `Jobs`, `StuckSweep`, `Recovery` and `Polling`, in
  terms of the node's answers, the chain and the clock and not of those specification functions.
- **The outbox relay** (`Outbox`), **the worker's scheduling and the mutex** (`Scheduling.dfy`), each a small
  machine with a class or loop beside it.
- **The token and the escrow** (`Token.dfy`, `Escrow.dfy`, `Payouts.dfy`, `Deals.dfy`, `DvPEscrow.dfy`) with checked 256-bit
  arithmetic, reverts that leave no trace, and a clock.

## What is assumed

- Amounts are positive integers in base units (six decimals), so a difference below 0.000001 is zero.
- Database transactions are serialisable. A status transition and a two-row booking are each atomic;
  booking and flipping to FINAL are separate steps, and so are an accepted broadcast and its row write.
- A broadcast is accepted and returns, or throws and was not accepted. A database failure after
  acceptance is a crash.
- One sweep iteration and one resumed job read and write their row in one step (with a crash possible after
  the broadcast): the source passes no `expectedFrom` there. Fresh jobs are split at every await.
- The chain is a sequence of blocks with one operator transaction per nonce, in nonce order. A
  reorganisation removes fewer than CONFIRMATIONS_FINAL blocks and never shortens the chain. Mined
  transactions were accepted before. A transaction's hash is its contents.
- Only the relayer moves the operator's tokens, and no recipient is the operator: the chain balance is the
  opening balance minus the successful transfers. The escrow service's use of the same wallet is outside
  these theorems.
- One process. The GENESIS pseudo-settlement is kept outside the table of settlements; its ledger row is in
  the ledger. Outbox rows have distinct creation times.
- Network prices, gas estimates, pending counts and broadcast answers are arbitrary.

One condition on whole runs is assumed, in the three theorems of `Nonces.dfy` and in what uses them:
`Nonces.DropFree`, the mempool drops nothing and every pending count the node reports is right. The fee bound
speaks of runs priced by the relayer's policy, and `FeePolicy` proves that the relayer prices so. `Screening` speaks
of runs whose screenings end with the provider's verdicts, as the create path's do. Every other theorem about runs
holds of all of them, or states the exact condition.

## What turned out false of the code

- *The ledger balance is never below the chain balance.* If the node drops a transaction and a later job is
  given its nonce, two settlements with equal recipient, amount, gas and fees share one transaction hash,
  and one transfer is booked twice (`SharedTransaction.DropsCanShareATransaction`). The guard is at the send: no
  transaction is ever accepted for two settlements exactly when no step sends one already accepted for
  another (`Reconcile.HashesAreOwn`), and then the ledger is not below the chain. Sharing alone does no harm
  before the second booking (`SharedTransaction.SharedButNotYetBelow`); once every mined transfer is booked, the
  ledger is not below the chain exactly when no mined transfer is shared (`Reconcile.LedgerNotBelowChain`).
- *Available balance is never promised twice.* Two requests that both pass the balance check before either
  inserts overcommit the operator (`Solvency.UnserialisedOvercommits`). Serialising check and insert is not
  enough: a resumed job can give up a settlement whose transfer a handler is about to book, its amount is
  promised again, and the handler books it all the same (`LateBooking.LateBookingOvercommits`). A run stays
  solvent exactly when every insert and every such late booking fits what is left
  (`Solvency.CommitmentStaysSolvent`).
- *A booked settlement is FINAL or on its way.* The same run leaves one booked and FAILED. Booked means FINAL or
  open on the settled transaction exactly when no step of the run spoils a booking
  (`StaleAnswers.BookedSettlesUnlessSpoiled`): a handler fails a booked settlement on an old receipt, confirms
  one with a hash since replaced, or books one that is no longer open with the hash it loaded; or a resumed
  job of a booked settlement is given up or written down with another transaction.
- *The reconciler's difference is unaccounted minus booked-but-not-FINAL.* In that run the difference is zero
  while 5 is booked that will never be FINAL (`LateBooking.LateBookingHidesFromDiff`); without shared transfers
  the identity holds exactly when every booked settlement is FINAL or open (`Reconcile.PlainIdentity`).
- *Cancel happens before the deadline*, says a comment (`contracts/contracts/DvPEscrow.sol:107`). The code has no such
  check: `Escrow.LateCancelGoesThrough` is a cancel after it, and `Escrow.EscrowStaysSolvent` says exactly when a
  cancel goes through.

## Model

| member | source | states |
|---|---|---|
| `SendSafety.OneTransferPerSettlement` | src/relayer/relayer.service.ts:118-211 | over every run, all accepted broadcasts of a settlement carry one nonce and its own recipient and amount, and no canonical chain holds two of them |
| `SendSafety.RunExtends` | src/settlement-state/settlement-state.service.ts:132-191 | along any run trail, outbox, ledger and accepted broadcasts only grow, settlements keep recipient, amount and a nonce once set, and settled transactions stay settled |
| `Permanence.BookedIsPermanent` | src/chain-listener/chain-listener.service.ts:101-199 | a settlement once booked has its successful transfer in the canonical chain of every later state, though the block number may be stale |
| `Permanence.BookingIsExact` | src/ledger/ledger.service.ts:96-134 | after any run with duplicate handlers and crashes each settlement has no ledger rows or one pair for its own amount, and FINAL means booked |
| `Permanence.LedgerBalances` | src/ledger/ledger.service.ts:145-168 | after any run OPERATOR debits equal SETTLED_OUT credits and the operator balance is opening minus the booked amounts |
| `Chain.DeepReceiptSettled` | src/chain-listener/chain-listener.service.ts:140-145 | a successful receipt at final depth, measured with a possibly old block number, lies where no reorganisation reaches |
| `AuditTrail.TrailReplays` | src/settlement-state/settlement-state.service.ts:132-191 | after any run the trail is, per settlement, a connected path of lifecycle edges from RECEIVED to its current status |
| `AuditTrail.TerminalIsForGood` | src/settlement-state/settlement-state.service.ts:137-145 | a settlement in a terminal status keeps it and gets no further trail row |
| `AuditTrail.OutboxIsFilteredTrail` | src/settlement-state/settlement-state.service.ts:169-188 | the outbox is, event for row and in order, the trail's rows to SUBMITTED, CONFIRMED, FINAL and FAILED; no event has another status; one FINAL event for a FINAL settlement, none otherwise |
| `AuditTrail.EventsPerStatus` | src/settlement-state/settlement-state.service.ts:25-30 | for each of the four statuses a settlement's events of it are, in order, its trail rows to it, with its own details and hash |
| `AuditTrail.ScreeningPrecedesMoney` | src/settlements/settlements.service.ts:91-108 | a broadcast is only accepted for a settlement whose trail already holds its approval |
| `AuditTrail.RejectedIsNeverSent` | src/settlements/settlements.service.ts:91-100 | a rejected settlement never gains a nonce, a hash or a broadcast |
| `AuditTrail.TransitionKeepsTrail` | src/settlement-state/settlement-state.service.ts:158-188 | a transition along a lifecycle edge keeps row, trail and outbox in agreement |
| `CreateOnce.CreateIsIdempotent` | src/settlements/settlements.service.ts:52-109 | over any interleaving: one row per instruction, every answer names it, at most one answer says created, one enqueue |
| `Screening.OnlyApprovedArePaid` | src/settlements/settlements.service.ts:91-108 | over runs whose screenings end with the provider's verdicts, a settlement is rejected only if its recipient is and gets past screening only if approved; every broadcast pays an approved recipient what some request asked |
| `Screening.CreatedMeansScreened` | src/settlements/settlements.service.ts:91-109 | a request answered "created" has a row with what it asked, judged by the verdict, and was queued exactly if approved |
| `Nonces.NoncesAreGapFree` | src/relayer/relayer.service.ts:135-158 | without drops, across failed sends and restarts, the k-th settlement sent has nonce base + k |
| `Nonces.NoncesAreNotShared` | src/relayer/relayer.service.ts:135-158 | without drops equal nonces mean one settlement |
| `Nonces.LocalNonceIsPending` | src/relayer/relayer.service.ts:66-72 | without drops the local nonce of a running relayer is the node's pending count |
| `Nonces.PendingIsNextFresh` | src/relayer/relayer.service.ts:196-204 | a pending count read at any time is exactly the next unused nonce |
| `Solvency.AvailableAgainstCommitment` | src/settlements/settlements.service.ts:130-136 | available balance is the uncommitted opening balance less what is booked but not flipped: never more, and equal exactly when nothing is half-finalised |
| `Solvency.InsertTakesAmount` | src/settlements/settlements.service.ts:62-78 | an insert keeps solvency exactly when its amount fits the commitment |
| `Solvency.CommitmentStaysSolvent` | src/settlements/settlements.service.ts:62-78 | opening minus booked minus in-flight-and-unbooked is non-negative in every state of a run exactly when every insert, and every late booking of a settlement given up, fits what is left |
| `Solvency.LateTakesAmount` | src/chain-listener/chain-listener.service.ts:188-191 | booking a settlement that is no longer in flight takes exactly its amount from the commitment |
| `Solvency.StepCommits` | src/settlements/settlements.service.ts:62-78 | apart from inserts and late bookings no step lowers the commitment |
| `Solvency.SerialisedChecksSuffice` | src/settlements/settlements.service.ts:62-78 | with balance checks still true at the inserts and no late booking, every state of the run is solvent |
| `Solvency.UnserialisedOvercommits` | src/settlements/settlements.service.ts:62-78 | two requests checked before either inserts promise more than there is |
| `BalanceChecks.CheckDecides` | src/settlements/settlements.service.ts:62-69 | a check refuses exactly when the amount exceeds the ledger balance less every settlement not rejected, final or failed |
| `BalanceChecks.InsertsAreChecked` | src/settlements/settlements.service.ts:62-78 | every insert of every run follows a check of the same request that it passed in the state of that check |
| `BalanceChecks.RefusalsAreChecked` | src/settlements/settlements.service.ts:62-69 | every refusal of every run follows a check that the request did not pass |
| `BalanceChecks.SectionsStaySolvent` | src/settlements/settlements.service.ts:62-78 | when nothing moves between checks and their inserts, every insert fits, and the run is solvent throughout exactly when every late booking fits |
| `LateBooking.LateBookingOvercommits` | src/relayer/relayer.service.ts:185-193 | a run in which every insert is checked and the late booking of a given-up settlement still overcommits |
| `LateBooking.LateBookingHidesFromDiff` | src/reconciliation/reconciliation.service.ts:63-74 | after that run the difference is zero with 5 booked and FAILED |
| `StaleAnswers.BookedSettlesUnlessSpoiled` | src/chain-listener/chain-listener.service.ts:183-199 | in every state of a run a booked settlement is FINAL or open on its settled transaction exactly when no step spoils a booking |
| `StaleAnswers.SpoiledLosesSettling` | src/relayer/relayer.service.ts:407-418 | each spoiling write, of a handler or a resumed job, does leave a booked settlement otherwise |
| `Reconcile.ReconciliationIdentity` | src/reconciliation/reconciliation.service.ts:63-125 | after any run, diff is the amount mined but neither booked nor still open minus the amount booked and still open, exactly when no mined transfer is shared |
| `Reconcile.CountedIsOpenAndMined` | src/reconciliation/reconciliation.service.ts:113-125 | what is counted by receipts is exactly what is SUBMITTED or CONFIRMED with its own transaction successful on the chain |
| `Reconcile.MatchedMeansAccounted` | src/reconciliation/reconciliation.service.ts:63-74 | after any run without a shared transfer and with nothing half-finalised, MATCHED holds exactly when every mined transfer is accounted for |
| `Reconcile.PlainIdentity` | src/reconciliation/reconciliation.service.ts:63-74 | after any run without a shared transfer, diff is unaccounted minus booked-not-FINAL exactly when every booked settlement is FINAL or open on its settled transaction |
| `Reconcile.LedgerNotBelowChain` | src/ledger/ledger.service.ts:145-168 | the ledger is not below the chain if every send is of the settlement's own transaction, and, with everything mined booked, exactly when no mined transfer is shared |
| `Reconcile.HashesAreOwn` | src/relayer/relayer.service.ts:135-158 | no transaction is accepted for two settlements exactly when no step sends one already accepted for another |
| `Reconcile.DropFreeSendsItsOwn` | src/relayer/relayer.service.ts:135-158 | without drops no step ever does |
| `Reconcile.TransfersBySettlement` | src/reconciliation/reconciliation.service.ts:113-125 | mined transfers sum to at most the amounts of the settlements they pay, and to exactly that when none is shared |
| `SharedTransaction.DropsCanShareATransaction` | src/relayer/relayer.service.ts:196-204 | a run with one drop in which two settlements of 5 are booked for one transfer of 5 |
| `SharedTransaction.SharedButNotYetBelow` | src/reconciliation/reconciliation.service.ts:63-74 | that run before its second booking: a shared transfer, ledger and chain both at 5 |
| `FeeBound.FeesStayBounded` | src/relayer/relayer.service.ts:205-261 | every accepted broadcast of a run priced by the policy pays at least the lowest quote (from 4 up) and at most (5/4)^MAX_RETRIES of the highest, and its cap covers its tip if the quotes' do |
| `FeeBound.FeesAreRaisedQuotes` | src/relayer/relayer.service.ts:205-261 | its fees are a price quoted in the run, raised at most MAX_RETRIES times |
| `FeePolicy.JobFollowsPolicy` | src/relayer/relayer.service.ts:135-207 | a job's steps follow the policy under the one quote it starts from, and leave in the entries the fees of the in-flight map |
| `FeePolicy.SweepFollowsPolicy` | src/relayer/relayer.service.ts:215-306 | a whole sweep follows it: each resend raises once the entry's fees, else the pending transaction's, else the quote; entries and map stay together |
| `FeePolicy.RecoveryFollowsPolicy` | src/relayer/relayer.service.ts:310-352 | recovery sends nothing and rebuilds in the entries what it rebuilds in the map |
| `RetryPolicy.BumpBounds` | src/relayer/relayer.service.ts:421-426 | one bump is between 5/4 of the excess over 3 and 5/4 of the fee, and grows it exactly when it is 4 or more |
| `RetryPolicy.FeeAfterBumps` | src/relayer/relayer.service.ts:421-426 | after k bumps 5^k (x-3) <= 4^k (f-3) and 4^k f <= 5^k x |
| `RetryPolicy.CapCoversTip` | src/relayer/relayer.service.ts:421-426 | bumps keep the fee cap at least the priority fee |
| `RetryPolicy.AttemptsBounded` | src/relayer/relayer.service.ts:143-210 | from retry count r the loop makes at most MAX_RETRIES - r + 1 broadcasts, counts every failure, keeps a resumed nonce, and raises fees at most once per failure |
| `RetryPolicy.AttemptsFollow` | src/relayer/relayer.service.ts:143-210 | for every sequence of answers: all but the last are retryable failures, the last decides the outcome, the fees are the first ones raised once per answer that says underpriced, the nonce is the pending count at the latest nonce error unless resuming |
| `RetryPolicy.SleptInClosedForm` | src/relayer/relayer.service.ts:428-430 | n sleeps take 1000 (2^n - 1) ms for n <= 3 and 7000 + 8000 (n - 3) ms beyond |
| `Listener.OpenRowsAreTracked` | src/chain-listener/chain-listener.service.ts:101-181 | every SUBMITTED or CONFIRMED settlement has a hash and its nonce, its block is recorded exactly when CONFIRMED, and a nonce once set never changes |
| `Listener.AtomicReceipt` | src/chain-listener/chain-listener.service.ts:101-181 | in any reachable state an uninterrupted receipt finalises exactly when deep, successful and in the recorded block, confirms a SUBMITTED one exactly when deep enough for that only, fails exactly when reverted, and reverts a CONFIRMED settlement exactly when its block is gone |
| `Polling.PollHandlesEveryOpenRow` | src/chain-listener/chain-listener.service.ts:68-181 | in any reachable state a poll finalises, confirms, reverts, fails or leaves every SUBMITTED or CONFIRMED row as its receipt says, leaves the others, and newly books exactly what it finalises |
| `Listener.HandleRun` | src/chain-listener/chain-listener.service.ts:101-163 | handling one receipt is three engine steps |
| `Listener.PollIsRun` | src/chain-listener/chain-listener.service.ts:68-86 | a whole poll is an engine run: load every open row, then handle each with one block number |
| `Listener.ChainListenerService.ProcessReceipt` | src/chain-listener/chain-listener.service.ts:101-163 | the database afterwards is that of the receipt's decision, booking before flipping |
| `Listener.ChainListenerService.PollConfirmations` | src/chain-listener/chain-listener.service.ts:68-86 | handles the open rows as first read, unless a poll is already running |
| `Listener.ChainListenerService.ProcessByTxHash` | src/chain-listener/chain-listener.service.ts:88-99 | handles the first row storing the hash if it is open, else nothing |
| `Listener.ChainListenerService.Finalize` | src/chain-listener/chain-listener.service.ts:183-199 | books, then flips a row that is still open |
| `Relayer.RelayerService.RunWorker` | src/relayer/relayer.service.ts:97-116 | takes jobs in queue order until the queue is empty or draining starts, with any steps of the rest of the system during each job; equals the engine run of that, and the scheduling machine's run of it; nothing if running or draining |
| `Relayer.RelayerService.ProcessJob` | src/relayer/relayer.service.ts:118-211 | a job is exactly its engine steps, with the in-flight entry set or removed and the sleeps in closed form |
| `Relayer.RelayerService.Send` | src/relayer/relayer.service.ts:143-210 | the retry loop computes the specified outcome and moves the local nonce only as a fresh job may |
| `Jobs.JobDelivers` | src/relayer/relayer.service.ts:118-211 | a job does nothing unless its settlement is approved or submitted; else the node takes at most one transaction, the settlement's own, as the answers say, and row, trail and local nonce say exactly that |
| `StuckSweep.SweepHandlesDueRows` | src/relayer/relayer.service.ts:215-306 | a sweep acts on a row exactly when it is submitted with hash and nonce, unmined, and at least the threshold old by its entry or else its update; it fails one out of retries, broadcasts any other exactly once, and the answer decides; all else stays |
| `Recovery.RecoveryHandlesEveryRow` | src/relayer/relayer.service.ts:310-352 | at boot reverted rows are failed and forgotten, pending ones tracked again on the transaction's own terms, dropped ones and no others queued oldest first, all else left |
| `Relayer.RelayerService.SweepStuckTransactions` | src/relayer/relayer.service.ts:215-246 | a sweep over the rows SUBMITTED at its start is the specified engine run; nothing while draining |
| `Relayer.RelayerService.BumpAndResend` | src/relayer/relayer.service.ts:249-306 | resends with the stored nonce and raised fees, or leaves, or fails the row, as the answer says |
| `Relayer.RelayerService.OnApplicationBootstrap` | src/relayer/relayer.service.ts:66-72 | boot takes the pending count and recovers every SUBMITTED row, as an engine run, and rebuilds the in-flight map as specified |
| `Relayer.RelayerService.RecoverRow` | src/relayer/relayer.service.ts:317-351 | one recovered row is failed, left, tracked again or queued again, with the whole in-flight map specified |
| `Plans.FreshJobRun` | src/relayer/relayer.service.ts:135-182 | the engine steps of a fresh job leave what the retry loop's outcome says |
| `Plans.TurnsFollow` | src/relayer/relayer.service.ts:88-95 | whatever the rest of the system does during a job, the worker sees as enqueue and drain turns of the scheduling machine |
| `Plans.RetriesRun` | src/relayer/relayer.service.ts:143-210 | a fresh job's failed attempts as engine steps end with the loop's nonce and count |
| `Services.SettlementStateService.Transition` | src/settlement-state/settlement-state.service.ts:132-191 | row, audit row and event change together or, when the guard rejects, not at all; the audit row has the row's new hash, and there is an event exactly for SUBMITTED, CONFIRMED, FINAL and FAILED |
| `Services.SettlementStateService.FindByStatuses` | src/settlement-state/settlement-state.service.ts:83-87 | exactly the rows in the statuses, each once |
| `Services.LedgerService.RecordSettlementFinalized` | src/ledger/ledger.service.ts:96-134 | books the pair or nothing; true exactly when it booked |
| `Services.LedgerService.EnsureOpeningSnapshot` | src/ledger/ledger.service.ts:48-90 | the first boot records the opening balance and its pseudo-settlement unless that exists, later ones change nothing |
| `Services.OpeningStays` | src/ledger/ledger.service.ts:137-142 | no later ledger row changes the opening balance |
| `Reconciler.ReconciliationService.ComputeMinedPending` | src/reconciliation/reconciliation.service.ts:113-125 | the loop sums the open settlements whose transaction is mined and successful |
| `Reconciler.ReconciliationService.Run` | src/reconciliation/reconciliation.service.ts:63-103 | appends one record whose difference and verdict are those of the reconciliation theorems |
| `Settlements.SettlementsService.Create` | src/settlements/settlements.service.ts:52-109 | whatever the rest of the system does at each of its awaits, answer, tables and queue are those of the engine's create steps among those; a known instruction gets its row, any other is refused exactly when its amount exceeds what can be spent at its check, and an approved one ends up queued |
| `Settlements.OthersUndisturb` | src/settlements/settlements.service.ts:71-108 | any run of others' steps leaves a waiting request, the process and every row's instruction in place |
| `Outbox.DeliveryIsOrdered` | src/outbox/outbox.relay.ts:24-51 | for any failures, restarts and appends: the log without adjacent repeats is a prefix of the outbox, marked rows are a prefix holding all delivered rows or all but the last, none undelivered |
| `Outbox.TickDelivers` | src/outbox/outbox.relay.ts:28-45 | a tick without failure delivers and marks the oldest fifty unmarked rows, or all there are |
| `Outbox.TickedIsRun` | src/outbox/outbox.relay.ts:24-51 | what one tick does is a run of the relay's moves |
| `Outbox.OutboxRelay.RelayOnce` | src/outbox/outbox.relay.ts:24-51 | table marks and broker log after a tick, up to the first failure; nothing if already running |
| `Scheduling.NoLostWakeUp` | src/relayer/relayer.service.ts:88-116 | at every await a non-empty queue that is not draining has a worker on one job; accepted jobs are those started, in order, then those queued |
| `Scheduling.QueuedJobsStart` | src/relayer/relayer.service.ts:97-116 | the k-th queued job starts when k jobs before it have ended, thrown or not |
| `Scheduling.DrainingStartsNothing` | src/relayer/relayer.service.ts:74-103 | once draining no job is accepted or started, whatever happens |
| `Mutexes.OneBodyAtATime` | src/relayer/mutex.ts:6-18 | at most one body runs, bodies start in call order, and one may start exactly when all before it have settled, well or not |
| `Mutexes.NeverStuck` | src/relayer/mutex.ts:9-17 | while a call is unsettled exactly one call can start or is running |
| `Mutexes.Mutex.RunExclusive` | src/relayer/mutex.ts:9-17 | chains the body behind the tail and becomes the tail |
| `Escrow.EscrowStaysSolvent` | contracts/contracts/DvPEscrow.sol:69-115 | after any calls the escrow covers every funded deal, grants no allowance, balances sum to the supply; release, refund and cancel go through exactly under their own conditions |
| `Escrow.FundingGoesThrough` | contracts/contracts/DvPEscrow.sol:69-83 | in any reachable world funding succeeds exactly when terms, allowance and balance allow |
| `Deals.FundingRecordsItsCall` | contracts/contracts/DvPEscrow.sol:69-83 | in any reachable world a funding that may go through records the caller as depositor and the call's beneficiary, amount and deadline, moves the amount from caller to escrow, uses that allowance, and changes no other deal; any other changes nothing |
| `Deals.DealsFollowTheirFunding` | contracts/contracts/DvPEscrow.sol:69-83 | after any calls every deal was opened by one funding call, made by its depositor on its terms |
| `Deals.ClosingPaysAsFunded` | contracts/contracts/DvPEscrow.sol:86-115 | after any calls a release pays the beneficiary named in the call that opened the deal and a refund or cancel pays that call's caller, the call's amount, exactly when it may; else nothing changes |
| `Deals.FundingRevertsBecause` | contracts/contracts/DvPEscrow.sol:69-83 | which reason a funding that reverts gives, the token's included |
| `Deals.ClosingRevertsBecause` | contracts/contracts/DvPEscrow.sol:86-115 | which reason a closing that reverts gives; it is never the token's |
| `Escrow.LateCancelGoesThrough` | contracts/contracts/DvPEscrow.sol:107-115 | a deal past its deadline that the settler cancels |
| `Payouts.EachDealIsPaidOnce` | contracts/contracts/DvPEscrow.sol:86-115 | each deal is paid at most once, in full, to one side; the escrow's transfers are the announced payouts in order; funded equals paid plus still funded |
| `Payouts.RefundClosesRelease` | contracts/contracts/DvPEscrow.sol:86-105 | release and refund are never enabled together, and once refund is enabled no later release goes through |
| `Token.TransferKeepsBalanced` | contracts/contracts/MockERC20.sol:42-47 | a transfer succeeds exactly when the sender has the amount, cannot overflow, and conserves the supply |
| `Token.TransferMoves` | contracts/contracts/MockERC20.sol:42-47 | what a transfer does to every balance, also to oneself |
| `Token.TransferFromSpends` | contracts/contracts/MockERC20.sol:34-40 | succeeds exactly when allowance and balance suffice; every balance and every allowance afterwards is given, the largest word being no limit |
| `Token.ApproveGrants` | contracts/contracts/MockERC20.sol:23-27 | sets the one allowance to the amount and leaves the others and all balances |
| `Token.MintKeepsBalanced` | contracts/contracts/MockERC20.sol:17-21 | a mint succeeds exactly when the supply still fits a word, and gives its receiver the amount and nobody else anything |
| `Token.MockERC20.MoveTokens` | contracts/contracts/MockERC20.sol:42-47 | updates in place; a revert undoes the debit |
| `Token.MockERC20.DoTransferFrom` | contracts/contracts/MockERC20.sol:34-40 | updates in place; a revert restores the allowance |
| `Token.MockERC20.DoMint` | contracts/contracts/MockERC20.sol:17-21 | updates in place; a revert restores the balance |
| `Token.MockERC20.DoApprove` | contracts/contracts/MockERC20.sol:23-27 | sets one allowance and nothing else |
| `EscrowContract.DvPEscrow.FundDeal` | contracts/contracts/DvPEscrow.sol:69-83 | records the deal and pulls the tokens, or reverts with the source's reason and no trace |
| `EscrowContract.DvPEscrow.ReleaseDeal` | contracts/contracts/DvPEscrow.sol:86-94 | pays the beneficiary and closes the deal, or reverts |
| `EscrowContract.DvPEscrow.RefundDeal` | contracts/contracts/DvPEscrow.sol:97-105 | pays the depositor after the deadline, or reverts |
| `EscrowContract.DvPEscrow.CancelDeal` | contracts/contracts/DvPEscrow.sol:108-115 | pays the depositor on the settler's word, or reverts |

## Left out

- NoncesAreGapFree: needs a mempool that drops nothing and correct pending counts, as do NoncesAreNotShared and LocalNonceIsPending.
- AvailableAgainstCommitment: takes the two reads of the balance check, ledger and in-flight sum, as one snapshot.
- ReconciliationIdentity: takes the three quantities of a reconciliation as one snapshot.
- FeesStayBounded: takes as hypothesis that broadcasts are priced by the policy, which `FeePolicy` shows of the relayer's jobs, sweep and recovery.
- SweepStuckTransactions: nothing else moves between two rows of one call; the engine's runs cover that interleaving.
- RunWorker: what else happens during a job is taken to happen at its end; the engine's runs split the job at every await. The sweep's own changes of the in-flight map meanwhile are not shown.
- FindByStatuses: the source leaves the order of rows to the database; here they come oldest first.
- Finalize: the gas metric counted on the first finalisation is not modelled.
- Create: the rejection of a non-positive amount by request validation is a precondition; a crash in the middle of a call is an engine step only.
- OnApplicationBootstrap: the node's pending count is a parameter.
- "A FAILED settlement was never paid" is not claimed: the sweep fails rows whose transaction may still be mined.
- "Every approved settlement survives a restart" is not claimed: recovery reads SUBMITTED rows only.
- Eventual finalisation: it needs fairness of the chain.
- Failure reasons as text, error-message matching (an arbitrary class stands for it), logs, metrics and HTTP.
- The TypeScript escrow service, `getDeal`, token name and decimals, signing and deal-id hashing.
- The token's `false` result: this token never returns it, so `TransferFailed` has no case.
- Several processes, or weaker database isolation.
