# BYOS verification model

A Dafny model of the bring-your-own-solution service: third parties submit
signed proposals for orders, the service validates them, bids the best of them
into auctions, follows the settlement's fate, and debits the escrow of a
sub-solver whose settlement fails. Three parts are modelled with shared
datatypes:

- **The proposal lifecycle and the money that follows it.** The tables
  (proposals, penalties, solutions), the audit log and the clock are one state.
  `Lifecycle` has every write as a pure step on it, `Storage` the store as a
  class whose methods write the tables in place and are proved equal to those
  steps. The actors are the validation tick (`Validation`), the driver's
  notifications (`Notify`), the auction endpoint (`Solve`), the penalty loop
  (`Penalty`), cancellation and the retention sweep. Between any two writes of
  one actor the others may write whatever they are allowed to, on snapshots as
  stale as they like.
- **The bid arithmetic.** The envelope, fill scaling, score and gas cut in
  checked and saturating 256-bit arithmetic with mixed floor and ceiling
  division (`Orders`, `Scoring`, `GasCut`), and the laws that relate their
  separate decisions about the user's limit (`BidLaws`).
- **The client's constant-product routing** (`Routing`) and the amounts it
  quotes (`Subsolver`).

Amounts are mathematical integers bounded to 256 bits (`U256`); an operation
that does not fit returns `None` or saturates, as in the source. The bound is
built from four 64-bit limbs (`Uint256.MAX`, `Uint256.Width`) and never appears
as a literal, because the nonlinear reasoning of SMT solvers is unreliable on
literals that wide: a maintainer should keep it so. The chain, the
orderbook, the database's failures, the wall clock and the other actors'
writes are parameters, arbitrary at each call.

How the state machine is set up:

- `Lifecycle.Apply` is one committed write together with its event.
  `Reachability.Allowed` says which steps an actor holding a stale snapshot may
  take; `Runs.ValidRun` is the stronger notion of runs in which every snapshot
  really was a row at some earlier moment, and `Runs.RunsAreAllowed` shows that
  such runs are allowed at every step.
- Each tick or endpoint is a method proved equal to a specification function
  (`Penalty.Tick`, `Validation.Tick`, `Solve.Answered`, `Notify.Notified`), about
  which the laws are proved as lemmas, for any interleaving.
- A method proved equal to its specification function inherits whatever that
  function says, so each such function also has laws that write its results out
  without naming it: `StoreLaws` for the store's writes and reads,
  `Notify.NotificationExact`, `Validator.JudgementExact`, `Solve.OfferIff` and
  `Solve.BidHonoursOrder`, `Routing.OutputQuotedIff` and their neighbours.
- `AuditTrail` drops the assumption that a write and its event are one step.
  What the channel saw then replays to the table exactly when the receipt was
  sent first and the status changes were sent in commit order
  (`ReplaysToTableIff`); evidence may be overtaken. `OvertakingBreaksReplay` is
  a run where a status change was overtaken.

The comment at `crates/byos/src/infra/storage.rs:764-767` says that the
notification endpoint queues the non-settlement charge; in the code the charge
is queued inside `apply_settlement_outcome`
(`crates/byos/src/infra/storage.rs:472-497`) and `queue_non_settlement_penalty`
has no production caller. The model follows the code.

## Model

| member | source | states |
|---|---|---|
| Runs.AuditReplaysToTable | crates/byos/src/infra/storage.rs:126-583 | in every reachable state a proposal's audit events form one connected chain that replays to the row's status, rejection reason and transactions, or to a dropped status when the row was swept; ids never inserted have no events |
| Runs.ReachableRows | crates/byos/src/infra/storage.rs:175-513 | in every reachable state the settlement transaction is set iff Settled, SettleFailed or Penalized, the debit transaction iff Penalized, the rejection reason iff Rejected |
| Runs.RunsAreAllowed | crates/byos/src/infra/storage.rs:169-208 | a snapshot row read at any earlier moment of a run, however stale, is still a view the present state has grown out of, so every compare-and-swap built on it keeps the invariant |
| Reachability.StepKeeps | crates/byos/src/infra/storage.rs:126-607 | every step of every actor, on any stale view, keeps the whole invariant, moves each proposal's story only forward and never changes whom a queued charge names |
| Runs.TerminalIsForever | crates/proposal-dto/src/proposal.rs:76-91 | a terminal proposal never leaves the terminal statuses under any run, changes only from SettleFailed to Penalized, keeps its settlement transaction, and its row disappears only if it was of the dropped tier |
| Runs.TerminalIffNeverActive | crates/proposal-dto/src/proposal.rs:76-91 | the statuses named terminal are exactly those from which no run leads to Active again, but for a submission whose owner or order column does not parse, which no verdict can reach; and where some run does, one on the production validator's verdicts does |
| Runs.OnlyDroppedRowsDeleted | crates/byos/src/infra/storage.rs:585-607 | a row deleted by any run had reached a dropped status, which its history still tells; a row holding money never goes |
| Runs.BiddableRowsSimulated | crates/byos/src/infra/storage.rs:262-339 | with the production validator's verdicts every row that is Active, Executing or holds money has its gas and trampoline |
| Runs.FateIsDecidedOnce | crates/byos/src/infra/storage.rs:382-470 | from Active, over any interleaving of notifications in any order, duplicates, timeouts, cancellations, expiries, verdicts and other actors, the first step that can decide the proposal does, once: the first report citing a transaction, or the first cancellation, expiry or adverse verdict that still finds the row as it must; the table shows that outcome ever after |
| Runs.FirstCitedOutcomeDecides | crates/byos/src/infra/storage.rs:442-470 | unless something else ended it first, the first outcome citing a transaction fixes status and transaction for good, but for the debit; with none the proposal is still Active or Executing |
| Runs.NotificationOrderIrrelevant | crates/byos/src/infra/storage.rs:442-470 | in particular after any run without a cancellation, expiry or adverse verdict on the proposal: whatever the order of reports, duplicates and timeouts, the first cited outcome is what the row shows |
| Runs.ExitsAreThree | crates/byos/src/infra/storage.rs:442-470 | Executing is left only by an abandonment, a timeout or a landing |
| Runs.ChargeIffAbandoned | crates/byos/src/infra/storage.rs:472-497 | a step queues a charge exactly when it releases an abandoned execution, and then one |
| Runs.ExecutingConserved | crates/byos/src/infra/storage.rs:442-583 | over every run, entries into Executing equal the three kinds of exit plus the one under way, and charges equal the abandoned releases: a timeout charges nothing, an episode at most once |
| Storage.ProposalStore.InsertProposal | crates/byos/src/infra/storage.rs:126-167 | a fresh id, the row under it, the received event, and nothing else |
| Storage.ProposalStore.TransitionTo | crates/byos/src/infra/storage.rs:175-208 | writes status and event iff the row still has the snapshot's status, else reports missing or stale and changes nothing |
| Storage.ProposalStore.RecordRevertDebit | crates/byos/src/infra/storage.rs:214-248 | the same compare-and-swap to Penalized with the debit's transaction and amount as evidence |
| Storage.ProposalStore.Resolve | crates/byos/src/infra/storage.rs:262-339 | a verdict lands iff the row is live and readable; writes simulation data, and an event and timestamp only when the status changes; the exact error otherwise |
| Storage.ProposalStore.CancelProposal | crates/byos/src/infra/storage.rs:344-380 | cancels iff found, readable, owned and live, with the error of the first test that fails |
| Storage.ProposalStore.ApplySettlementOutcome | crates/byos/src/infra/storage.rs:405-513 | decides from the committed status by the legality table; keeps an earlier settlement transaction; queues one charge on abandonment; ignored outcomes change nothing |
| Storage.ProposalStore.ReleaseStale | crates/byos/src/infra/storage.rs:535-583 | all overdue Executing rows become Active with one event each, or none do when one cannot be read |
| Storage.ProposalStore.Sweep | crates/byos/src/infra/storage.rs:591-607 | deletes exactly the old dropped-tier rows and their solutions rows, and counts them |
| Storage.ProposalStore.RecordNonSettlement | crates/byos/src/infra/storage.rs:817-840 | marks the queued charge paid and logs the debit |
| Storage.ProposalStore.RecordBid | crates/byos/src/infra/storage.rs:849-864 | upserts the attribution, or fails when the proposal's row is gone |
| StoreLaws.ReceiptExact | crates/byos/src/infra/api/routes.rs:109-131 | a receipt stores the body as submitted with nothing else filled in, under the next id, stamped now, with its event |
| StoreLaws.VerdictExact | crates/byos/src/infra/storage.rs:262-339 | written out: a verdict finds a readable row submitted or active or changes nothing; which status, reason, gas, addresses and tokens each kind of verdict leaves, and the one event when the status changes |
| StoreLaws.CancelExact | crates/byos/src/infra/storage.rs:344-380 | written out: the owner's readable row, submitted or active, is cancelled with its event, or nothing changes |
| StoreLaws.TransitionExact | crates/byos/src/infra/storage.rs:175-208 | written out: the row moves, with its event, only from the status the snapshot saw |
| StoreLaws.OutcomeExact | crates/byos/src/infra/storage.rs:405-513 | the legality table written out for every outcome and status, with the transaction recorded, the charge queued and the event |
| StoreLaws.EvidenceExact | crates/byos/src/infra/storage.rs:518-528 | the events of a notification, a recorded charge and a recorded debit, word for word |
| StoreLaws.TimeoutExact | crates/byos/src/infra/storage.rs:535-583 | an execution is released iff its stamp plus the age is behind the clock, unless such a row does not parse, and then nothing changes |
| StoreLaws.SweepExact | crates/byos/src/infra/storage.rs:591-607 | a row is deleted iff its status is dropped and its stamp plus the age is behind the clock; its attributions go and no others |
| StoreLaws.StampIsEntry | crates/byos/src/infra/storage.rs:175-583 | in every reachable state a row's stamp is the moment it entered its status: re-validation does not renew it |
| StoreLaws.TimesOutIff | crates/byos/src/infra/storage.rs:535-583 | over every run an execution times out exactly once it has lasted longer than the age, counted from its beginning |
| StoreLaws.SweptIff | crates/byos/src/infra/storage.rs:591-607 | over every run a row is swept exactly once it has been dropped for longer than the age |
| StoreLaws.ListedExactly | crates/byos/src/infra/storage.rs:644-660 | an order's read lists exactly its active rows whose columns all parse, each once, in id order |
| Storage.ProposalStore.ActiveByOrderUids | crates/byos/src/infra/storage.rs:668-705 | the batch read refines the per-order read: an entry iff the order was requested and has a readable active row, equal to that order's own read in order and content |
| Storage.BatchHoldsEachOrder | crates/byos/src/infra/storage.rs:644-705 | one order's rows within any batch are exactly what its own query selects |
| Snapshots.SnapshotExact | crates/byos/src/infra/storage.rs:751-762 | a snapshot holds exactly the readable rows in its statuses, each once and as it stands; unreadable rows cost only themselves |
| Penalty.PenaltyLoop.RevertDebitFor | crates/byos/src/infra/penalty.rs:121-182 | one failed settlement's turn: parked, unpriced, refused, sent but unconfirmed, confirmed and recorded, or confirmed and lost |
| Penalty.PenaltyLoop.ChargeDebitFor | crates/byos/src/infra/penalty.rs:198-236 | one queued charge's turn, the debit naming the order won and abandoned; a debit sent but unconfirmed reads as a failure and may land yet |
| Penalty.PenaltyLoop.RunTick | crates/byos/src/infra/penalty.rs:94-237 | a tick of two loops over stale queues, disturbed before each entry and between the two sweeps, equals the specification tick |
| PenaltyRuns.MoneyConserved | crates/byos/src/infra/penalty.rs:94-237 | over every life and any operator and database answers, an item's landed debits are one if it is on record as paid, plus those confirmed but not recorded, plus those that landed after their confirmation was given up on; each is the right amount from the right party for the right settlement or order; landed money equals logged, lost and late money |
| PenaltyRuns.DebitedExactlyOnce | crates/byos/src/infra/penalty.rs:104-237 | when recording never fails and no debit lands late, each paid item has exactly one debit, each unpaid one none, and landed debits sum to the audit log |
| DoubleCharge.TimeoutChargesTwice | crates/byos/src/infra/blockchain/operator.rs:14-20 | without the second condition that is false: whenever a settlement alone owes and has attempts left, a debit that is given up on, lands, and is retried charges it twice, with no recording failed |
| DoubleCharge.DoubleChargeHappens | crates/byos/src/infra/blockchain/operator.rs:14-20 | one such life from the empty database |
| PenaltyRuns.RevertNeverLost | crates/byos/src/infra/penalty.rs:104-182 | once failed, a settlement's row stays forever, waiting for its debit or penalized by it, under the same transaction |
| Quiescence.AskedAtMostTenTimes | crates/byos/src/infra/penalty.rs:18-56 | over every life an item is taken to the operator at most ten times, and ten more for each unrecorded debit and each restart, which forgets the attempts, and never before it is owed; every debit that landed or may yet was one of those times, which caps the double charges |
| Quiescence.TurnAsksUntilTen | crates/byos/src/infra/penalty.rs:122-127 | at each turn an item is taken to the operator iff it has failed fewer than ten times in a row |
| Quiescence.TickSpends | crates/byos/src/infra/penalty.rs:121-222 | a tick that can read and record spends some of every owing item's remaining attempts |
| Quiescence.TenTicksSettle | crates/byos/src/infra/penalty.rs:94-237 | an owing item is recorded or parked after ten such ticks without a restart, whatever the others write and whatever lands late meanwhile |
| Quiescence.LoopGoesQuiet | crates/byos/src/infra/penalty.rs:94-237 | with no new work, after ten ticks under any chain answers no later tick calls the operator or changes anything |
| BidLaws.EnvelopeIffScaledSurplus | crates/byos/src/domain/order.rs:60-94 | on partially fillable orders the cross-multiplied envelope accepts iff the amounts are in range, both products fit, and the floor- or ceiling-scaled candidate has no negative surplus |
| BidLaws.EnvelopeExact | crates/byos/src/domain/order.rs:32-94 | the envelope's whole answer: unsupported without plain balances, the order's own side on fill-or-kill, range and cross-multiplied limit on partial fills |
| BidLaws.ScaledExact | crates/byos/src/domain/scoring.rs:68-101 | scaling replaces the order's two amounts by the fill and its limit, rounded in the user's favour, and fails only on a zero order amount or a product that does not fit |
| BidLaws.CutKeepsSignedLimit | crates/byos/src/domain/gas_cut.rs:36-79 | whenever scaling and cutting succeed, the unscaled signed limit holds after the cut, executed plus cut is the fill target, and the cut is the least amount whose value covers the gas |
| BidLaws.BuyOrderScoreIffCut | crates/byos/src/domain/gas_cut.rs:65-73 | on every buy candidate and price: with a price the score accepts exactly what the cut accepts and whose surplus is worth no more than 256 bits; without one nothing is cut and only a gas-free candidate scores |
| BidLaws.BuyOrderScoreImpliesCut | crates/byos/src/domain/scoring.rs:119-137 | a positively scored buy order can always be cut, without overflow |
| BidLaws.SellOrderCutIff | crates/byos/src/domain/gas_cut.rs:36-64 | every sell candidate can be cut iff it is priced, nothing overflows, and what is left after the cut still buys the limit at the route's rate, compared without division |
| BidLaws.SellCutWithinSurplusIff | crates/byos/src/domain/gas_cut.rs:43-64 | on a candidate filled whole that means the cut costs, at the route's own rate, no more than the surplus |
| BidLaws.SellOrderScoreImpliesCut | crates/byos/src/domain/gas_cut.rs:36-79 | a sell order whose route does not beat the auction's ratio and whose score is worth one sell atom can be cut |
| BidLaws.ScoreCoversGas | crates/byos/src/domain/scoring.rs:119-137 | a score means, over unbounded integers, that the surplus is worth the gas and the score |
| Solve.BestIsThePick | crates/byos/src/infra/api/solve.rs:91-137 | something is selected iff some proposal passes every filter, and then it is the one with the greatest score among all that pass, the last of equals |
| Solve.FailingYieldsToRunnerUp | crates/byos/src/infra/api/solve.rs:122-131 | a proposal failing any filter, the cut included, leaves the order to whoever would win without it |
| Solve.OfferIff | crates/byos/src/infra/api/solve.rs:91-133 | exactly when a proposal is a bid, over unbounded integers: unexpired, simulated, within what is left, scalable, its surplus worth more than its gas and, on a sell order, the gas cut out of the fill with the limit still met |
| Solve.OfferIsExact | crates/byos/src/infra/api/solve.rs:91-133 | score and cut of every offer equal the unbounded-integer formulas: no saturated gas, overflow or rounding reaches a bid, executed and cut make up the fill, and the signed limit holds |
| Solve.ScoreWithoutCutExists | crates/byos/src/infra/api/solve.rs:122-126 | the ratio condition between score and cut is needed: an auction, order and proposal that score 70 000 and are not bid because of the cut |
| Solve.Engine.Answer | crates/byos/src/infra/api/solve.rs:27-163 | the endpoint's loops equal the specification answer; the gas price is published iff it fits 64 bits; a failed read bids nothing |
| Solve.Engine.Consider | crates/byos/src/infra/api/solve.rs:133-157 | one order: pick, build, record, and only then bid |
| Solve.AnswerAttributed | crates/byos/src/infra/api/solve.rs:135-157 | for any prior table, any failing recordings and any writes meanwhile, ids are exactly 1..n, each solution is built on its order's pick and its id attributed to that proposal, though ids are reused |
| Solve.RecordedBeforeBid | crates/byos/src/infra/api/solve.rs:133-157 | an order's pick is bid iff its attribution was recorded, or the auction has no id; a failed recording leaves the answer and the attributions as they were |
| Solve.EveryPickIsBid | crates/byos/src/infra/api/solve.rs:133-157 | every order with a buildable pick is bid unless its recording failed |
| Solve.BidHonoursOrder | crates/byos/src/infra/api/solve.rs:64-241 | each returned solution is a live proposal for its order, unexpired, within what is left; its gas is the simulated gas plus the buffer, its fee the least that pays for it, executed and fee make up the fill, and the signed limit holds |
| Solve.MeanwhileKeepsAttribution | crates/byos/src/infra/storage.rs:842-864 | no other actor's write, the sweep included, re-attributes a recorded solution id |
| Solve.LookupFindsProposal | crates/byos/src/infra/storage.rs:866-890 | looking an attributed id up yields exactly the proposal it was built on, or nothing once its row is gone or unreadable |
| Notify.AttributedExactly | crates/byos/src/infra/api/notify.rs:174-203 | a notification reaches exactly the readable proposals its solution ids were recorded for |
| Notify.Handle | crates/byos/src/infra/api/notify.rs:47-134 | the endpoint's loops equal the specification notification |
| Notify.NotifiedReaches | crates/byos/src/infra/api/notify.rs:47-134 | any notification, disturbed or not, is a run of allowed steps and keeps the invariant |
| Notify.ReportWritesExact | crates/byos/src/infra/api/notify.rs:83-131 | under any interference: each report applies to the row as it then stands, is kept as evidence when it does not apply, and changes nothing when the write fails |
| Notify.ReportsExact | crates/byos/src/infra/api/notify.rs:83-131 | undisturbed, every named row takes the outcome once however often it is named, others stay, and one charge is queued per abandoned execution |
| Notify.NotificationExact | crates/byos/src/infra/api/notify.rs:66-165 | kind by kind, undisturbed: success settles and revert fails every attributed proposal in flight under its transaction, a start freezes the active ones, an abandonment returns the executing ones with one charge each, and every other kind, or a success or revert without its transaction, changes no row and charges nothing |
| Notify.OutcomesAreIdempotent | crates/byos/src/infra/storage.rs:442-470 | no outcome applies twice in a row |
| Notify.RevertOwed | crates/byos/src/infra/api/notify.rs:142-165 | whatever else is written before, between and after, a reported revert puts every named proposal still in flight at its turn on the money path, where it stays under the transaction reported |
| Notify.EveryReportIsEvidence | crates/byos/src/infra/api/notify.rs:66-131 | undisturbed, the events about each proposal grow by exactly the number of times the notification names it, acted on or not |
| Validation.RunTick | crates/byos/src/infra/validation.rs:108-169 | release, snapshot, expiry and verdict loops equal the specification tick |
| Validation.TickReaches | crates/byos/src/infra/validation.rs:102-169 | a tick with any verdicts, in any arrival order, on any stale snapshot, is a run of allowed steps and keeps the invariant |
| Validation.WritesExact | crates/byos/src/infra/validation.rs:133-168 | under any interference: an expiry compares and swaps, a verdict is judged on the row as it then stands, a failed write or a deferred verdict changes nothing |
| Validation.TickExact | crates/byos/src/infra/validation.rs:85-169 | undisturbed, whatever order verdicts arrive in: overdue executions are released into this tick, expired proposals expire unjudged, every other readable live proposal takes its own verdict, every other row keeps its proposal, and ids, charges and attributions are unchanged; a failed release does not stop the tick, an unreadable book ends it |
| Validator.AcceptedIff | crates/byos/src/infra/blockchain/validator.rs:208-352 | exactly when a proposal is accepted, over unbounded integers: collateral, envelope, simulation and, the first time only, a surplus above gas and minimum score; an acceptance carries what was simulated |
| Validator.JudgementExact | crates/byos/src/infra/blockchain/validator.rs:208-414 | every answer exactly when: it defers iff the first question that does not pass went unanswered, implausible gas included, and rejects for each reason or fails on a revert iff that is the first thing wrong |
| Validator.GateIffPays | crates/byos/src/infra/blockchain/validator.rs:136-191 | the rounded, saturating gate decides the unbounded comparison exactly for every plausible gas |
| Validator.MarketMovesOnlyEscrow | crates/byos/src/infra/blockchain/escrow.rs:40-120 | for a proposal already competing a move of the shared gas price, the native price and the minimum score changes the judgement iff it takes the escrow across its threshold, and then to or from InsufficientEscrow; never to Unprofitable |
| Validator.ActivatedBids | crates/byos/src/infra/api/solve.rs:91-133 | an activated proposal passes the filters of an auction on the same terms, and its offer can be built, unless its deadline passed or, on a sell order only, the cut fails on the limit or for want of a price |
| Validator.ProposalValidator.Validate | crates/byos/src/infra/blockchain/validator.rs:404-414 | the validator with its trampoline and authenticator caches equals the judgement on the answers as cached, and never forgets or replaces a cached address |
| AuditWriter.Writer.InsertNext | crates/byos/src/infra/audit.rs:48-67 | one event is inserted after any number of failures; persisted, in hand and queued stay, in order, what was emitted |
| AuditWriter.Writer.Run | crates/byos/src/infra/audit.rs:36-43 | under any failures and arrivals the writer exits with exactly what was sent persisted, in order |
| AuditWriter.BackoffLaw | crates/byos/src/infra/audit.rs:30-65 | an event's waits are 100 ms doubling, capped at 5 s, and never shrink |
| AuditTrail.TrailIsPermutation | crates/byos/src/infra/storage.rs:114-120 | with commit and emission split, emitted plus waiting events are always a permutation of the commits |
| AuditTrail.EmittedIsPrefix | crates/byos/src/infra/storage.rs:114-120 | sent in commit order, a proposal's emitted events are a prefix of its committed ones |
| Chains.OneOrder | crates/byos/src/infra/storage.rs:126-583 | the status events of a proposal have only one connected order: two chains of the same events that end alike are equal |
| Chains.SameStoryIff | crates/byos/src/infra/storage.rs:126-583 | a reordering of a proposal's events tells the same story iff the receipt stays first and the status events keep their order |
| AuditTrail.ReplaysToTableIff | crates/byos/src/infra/storage.rs:114-583 | once nothing about a proposal waits, what the channel saw replays to the table iff its receipt was sent first and its status changes were sent in commit order |
| AuditTrail.EmittedReplaysToTable | crates/byos/src/infra/storage.rs:114-583 | in particular when all its events were sent in commit order |
| AuditTrail.NeverOverlapsIsInOrder | crates/byos/src/infra/storage.rs:114-583 | committing about a proposal only when none of its events waits is enough for that order |
| AuditTrail.OvertakingBreaksReplay | crates/byos/src/infra/storage.rs:262-380 | without it the replay law is false: an activation sent after the cancellation that followed it |
| WholeSystem.PersistTrail | crates/byos/src/infra/audit.rs:36-67 | from commit to the evidence table: a writer fed what the tasks sent persists a permutation of the commits once all are sent, and each proposal replays from it to the table exactly under the condition on sending order |
| WholeSystem.RevertedBidIsDebited | crates/byos/src/infra/penalty.rs:104-182 | from a bid to its debit: a reported revert on a returned solution leaves its proposal owing or paid through any life after; paid means a debit on chain of the right amount, from its sub-solver, under the reported transaction; after ten served ticks it is paid or parked |
| Routing.OutputReachesIff | crates/subsolver/src/domain/routing.rs:13-26 | the output reaches y exactly from the least sufficient input on, rounding included |
| Routing.OutputQuotedIff | crates/subsolver/src/domain/routing.rs:13-26 | a swap is quoted iff both reserves hold something and the two sums of products fit |
| Routing.InputQuotedIff | crates/subsolver/src/domain/routing.rs:28-38 | a charge is quoted iff the pool holds more than is asked and the products and the charge fit |
| Routing.InputBuysOutput | crates/subsolver/src/domain/routing.rs:28-38 | the inverse pair: what is charged for y buys at least y |
| Routing.InputIsLeastOrOneMore | crates/subsolver/src/domain/routing.rs:28-38 | the charge is the least sufficient input, plus one atom exactly when the division is exact |
| Routing.OutputCostsInput | crates/subsolver/src/domain/routing.rs:13-38 | buying back an output never costs more than one atom over the input |
| Routing.SwapKeepsPool | crates/subsolver/src/domain/routing.rs:13-26 | a swap never drains the pool and the fee-adjusted product never falls |
| Routing.OutputMonotone | crates/subsolver/src/domain/routing.rs:13-26 | more in never yields less out |
| Routing.InputMonotone | crates/subsolver/src/domain/routing.rs:28-38 | asking for more never costs less |
| Subsolver.SellQuotedIff | crates/subsolver/src/domain/proposal.rs:97-110 | a sell order is quoted iff the swap can be computed and the order sells at least the least input that buys its limit |
| Subsolver.BuyQuotedIff | crates/subsolver/src/domain/proposal.rs:97-110 | a buy order is quoted iff the charge can be computed and is within what it sells |
| Subsolver.ClientQuoteInsideEnvelope | crates/subsolver/src/domain/proposal.rs:97-110 | whatever the client quotes the server's envelope accepts, on partially fillable orders iff the compared products fit |
| Subsolver.ClientQuoteHasSurplus | crates/subsolver/src/domain/proposal.rs:97-110 | and the surplus the server scores is never negative |

## Left out

- HTTP routing, authentication, JSON, command line, configuration, start-up and shutdown: plumbing.
- EIP-712 hashing, ABI encoding, the settlement and trampoline calldata: libraries not in the repository. A proposal carries no interactions, hash, nonce or signature here, and a solution no clearing prices.
- SQL and the column codecs: the tables are maps. A row that does not parse is two flags on the row, one for the columns read by single-row writes and one for the rest; a parse failure in the penalties table is a failed read of that queue.
- Integer ids beyond 64 bits and the id sequence's overflow; an id the column cannot hold names no row.
- RPC and contracts: the operator, the simulation and the orderbook answer arbitrarily. A debit's on-chain reason is the settlement transaction or the order uid itself, not its hash.
- Crashes between a commit and its emission, and commits whose outcome the client cannot tell.
- Two concurrent answers to one auction: attribution is proved against every other actor.
- A second abandonment report that arrives in a later Executing episode charges again, as the code accepts (crates/byos/src/infra/storage.rs:475-481); charges are stated per episode.
- Orders whose sell and buy token are the same: prices are stated per token role.
- The order cache, the per-tick balance cache, the pair address and the client's poll loop: only easy members.
- The semaphore that bounds concurrent validations: verdicts arrive in an arbitrary order, which covers every bound.
- Storage.ProposalStore.ReleaseStale: emits the released rows' events in id order, while the database returns them in any order (crates/byos/src/infra/storage.rs:539-548); `AuditTrail` sends committed events in any order.
- PenaltyRuns.RevertNeverLost: says the row stays, not that the debit lands, since an item the operator refuses ten times is parked.
