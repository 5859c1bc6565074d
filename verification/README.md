# Verification model of the copy-trading backend

This project models the stateful core of a Solana wallet-tracking and copy-trading backend and proves
its central properties in Dafny. `dafny verify dfyconfig.toml` checks everything.

Four groups of files follow the system's structure.

1. **The copy-trade money machine.** `Lamports` (rounding), `Sizing` (position size), `Safety` (the
   rails kept in Redis), `Execution` (one approved buy, one mirrored sell) and `Desk`, a state machine
   whose steps are leader buys and sells, approvals, stop and resume, midnight and cooldown expiry.
   The class `Desk.CopyDesk` performs the same operations on mutable state and is proved to take
   exactly those steps, so the theorems about runs of the state machine cover it. The key inductive
   quantity is the day's realised result minus the lamports at risk: a close never lowers it.
2. **The ingestion pipeline.** `Delivery` (listener, streams, writers that may die at any moment),
   `Writer` (idempotent persistence) and `Ledger` (trades folded into position episodes).
   `Delivery.IngestWriter` and `Writer.TransactionWriter` are the imperative forms.
3. **The shared RPC allowance.** `RpcBudget` (many processes, one counter per lane and day) and
   `RateLimiter` (slot reservation and the retry loop).
4. **Algorithms against specifications.** `Base58`, `Dataset` (two-pointer pairing, point-in-time
   lookup, labels), `Drawdown`, `Swaps` (inference from balance changes), `Parsers` (priority,
   fallback, deduplication), `RiskWeights` (tuning, loading, scoring), `Ranking` and `Confidence`.

`Pipeline` joins the second and the fourth group: what the parsers infer is what the writer stores, and
a run of the delivery protocol leaves every transaction in the tables once. `Numbers`, `Options` and
`Sorting` are helpers; sorting stands for Python's stable `sorted`.

## Where the code and its documentation disagree

The model follows the code. Each point is a theorem with the exact condition, an example at a concrete
input, or both.

- `backend/app/evaluation/prediction_eval.py:126-129` says predictions are graded with the rule the
  training labels use. Training measures the horizon from the buy's block time
  (`backend/app/analytics/ml/dataset.py:162-173`), grading from the moment the prediction was made
  (`prediction_eval.py:121-137`, `backend/app/analytics/ml/predict.py:65-71`). The matches coincide
  exactly when the pair closes neither between the two moments, whichever comes first, nor only after
  the earlier window (`Dataset.MatchesAgreeExactly`, whose condition can be read off the closing times;
  labels can also agree by chance, `Dataset.LabelsAgreeExactly`); a leader who sells within seconds
  breaks it (`Dataset.QuickSellIsNeverGraded`).
- `backend/app/execution/executor.py:171`, `173` and `319` say that a retried attempt broadcast nothing.
  Every exception of the send counts as that (`345-349`), but the client also raises when the node took
  the transaction and the answer got lost (`backend/app/services/rpc.py:275-309`). At most one signature
  comes back, but every lost answer is one more transaction on the network
  (`Execution.OneAnsweredSend`), and two swaps in one execution happen exactly when a lost answer is
  followed by another accepted attempt (`Execution.DoubleSwapExactly`, `Execution.LostAnswerSwapsTwice`);
  when none follows, the swap is reported as a plain failure (`Execution.LostAnswerEndsAsFailure`).
- `backend/app/services/rpc.py:255-261` says every caller skips the missing result of a frozen client.
  The executor takes it for the signature of a broadcast and opens a position although nothing was sent
  (`executor.py:345-366`; `Execution.PhantomExactly`, `Execution.FrozenSendOpensPhantom`). A swap the
  poll sees fail on chain opens one as well (`439-450`; `Execution.FailedSwapOpensPosition`).
- Exceptions of the simulation and of the status polls (`executor.py:340`, `442`) escape the run
  (`Execution.RaisesExactly`), and a position insert can be refused by the table's unique index. Either
  way the transaction is taken back while the swap may be on the network, although
  `executor.py:353-359` calls an untracked position strictly worse than a phantom one. A live run with a
  swap on the network books it exactly under the condition of `Desk.BroadcastIsBookedExactly` (for a
  landed readable swap: `Desk.LandedBuyIsBookedExactly`). On the worker's path an escaping poll leaves
  no trace of the swap (`Desk.EscapedPollLosesTheSwap`); a refused insert cannot happen there
  (`Desk.NothingIsRefusedWithoutApprovals`). On the approval path the order is pending again exactly
  then (`Desk.ApprovalConsumesExactly`), and approving it again makes another swap
  (`Desk.EscapedPollLosesTheSwap`, `Desk.RefusedApprovalRepeats`).
- The emergency stop promises to halt everything instantly (`backend/app/decision/safety.py:3-5`). A
  swap that has passed its last gate check, the worker's or an approved one, still ends and may add its
  row (`Desk.StopHolds`, `Desk.StopOpensExactly`, `Desk.StopDoesNotRecallASwap`).
- `backend/app/api/copytrading.py:199-200` locks the one order that is approved. Approvals of different
  orders can overlap and then each passes a gate that leaves room for one (`Desk.ExposureIsCapped`
  bounds what k of them can add, `Desk.OverlapOvershootsTheLimit`).
- A live sell without a quote closes the row at market value although nothing was sold on chain
  (`backend/app/execution/executor.py:230-246`; `Desk.LiveCloseIsSoldExactly`,
  `Desk.UnquotedLiveCloseSellsNothing`).
- The comment at `backend/app/execution/executor.py:477-479` says only live buys feed the failure
  streak. In paper mode a trade counts as a failure exactly when it is never quoted
  (`Execution.PaperFailureCountsExactly`, `Execution.PaperBuyTripsTheStop`).
- The comment at `backend/app/execution/executor.py:370-372` says a position is opened for a swap that
  confirmed with an unreadable fill. The code fails the trade and opens none
  (`Execution.LandedFillConfirms`).
- The close time and the day of the counter are two clock reads (`executor.py:259` and `safety.py:115`),
  so a close that straddles midnight is booked on the day after its stamp (`Desk.BooksAgreeExactly`,
  `Desk.StraddlingCloseSplitsTheBooks`).
- `backend/app/ingestion/fetcher.py:9-13` promises that a crashed consumer's entries are reclaimed.
  The result of XAUTOCLAIM is discarded (`fetcher.py:152`) and only new entries are read, so an
  orphaned entry is never written without another notification (`Delivery.RecoverableExactly`,
  `Delivery.OrphanIsNeverWritten`).
- The same passage says a crash or failure duplicates work instead of losing it. That holds for the
  tables. A trade is announced exactly when the entry of its transaction's first commit gets to publish
  it (`Pipeline.TradeIsAnnouncedExactly`); once that entry has failed or its writer has died, no
  continuation ever announces it, because every retry finds its row and reports nothing new
  (`fetcher.py:235-250`; `Pipeline.CanBeAnnouncedExactly`, `Pipeline.AnnouncementCanBeLost`).
- The priority branch of the listener's enqueue never releases its deduplication claim when the add
  fails, although the other branch explains why it must (`backend/app/ingestion/ws_listener.py:167-193`
  and `212-220`; `Delivery.ClaimLeaksExactly`, `Delivery.PriorityClaimLeaks`).
- Every database write is described as idempotent. That holds if and only if the transaction carries a
  block time, because the clock replaces a missing one (`backend/app/ingestion/parsers/util.py:57-61`;
  `Writer.ReplaySafeExactly`).
- The comment at `backend/app/decision/token_risk.py:246` says the tuner already clamps to the bounds.
  It clamps before renormalising, so the loader can change what the tuner stored
  (`RiskWeights.TunedWeightsSurviveExactly`, `RiskWeights.TunedWeightsCanBeReclamped`).
- Loading falls back to the base weights on every bad payload its author listed, but an infinite
  version or an integer too large for a float raises OverflowError, and a text nested too deeply
  RecursionError; neither is listed
  (`RiskWeights.LoadedWeightsAreGood`, `RiskWeights.OversizedEntryRaises`).
- The iteration order of the set of stable mints is not fixed by Python. It shows in the inferred event
  in exactly one situation (`Swaps.StableOrderMattersExactly`, `Swaps.StableOrderCanMatter`).
- Equal closing times are returned in no fixed order; a label depends on that order exactly when tied
  earliest closings differ in it (`Dataset.OrderNeverMattersExactly`,
  `Dataset.TiedClosesDependOnTheOrder`).
- An undefeated wallet is capped at the profit component 0.9 and scores below the same record with a
  profit factor above nine (`Confidence.UndefeatedScoresBelowExactly`,
  `Confidence.UndefeatedCanScoreLower`).

## Assumptions

- Amounts are exact: `Decimal` and `float` values are reals, lamports are integers. Decimal context
  precision, IEEE rounding and the rounding of NUMERIC columns are outside the model.
- Proceeds of a sale are never negative, token amounts of events are positive and quote amounts are
  not negative (the event type validates the last two).
- The copy-trade worker handles one message at a time. Steps of operators, midnight and approvals may
  fall between its evaluation of an order, the last gate check and the fill. Approvals of different
  orders may overlap each other and everything else between their gate check and their commit; the row
  lock of PostgreSQL keeps one order from being approved twice at a time.
- A process that dies or is cancelled during an execution leaves what an escaping exception leaves.
- The executor's and the rails' writes to Redis and the commits of the copy-trade tables succeed, apart
  from the unique-index refusal; failures of the ingestion's writes are modelled. The output amount of a
  quote is a finite number or unreadable.
- The streams are not trimmed, and Redis keeps its data. A Redis read that fails is modelled where the
  code reacts to it (safety gates, budget).
- Everything the network answers (quotes, swap transactions, signing, simulation, broadcast, status
  polls, HTTP results) and every clock reading is an arbitrary parameter.

## Model

| member | source | states |
|---|---|---|
| `Lamports.Quantize` | backend/app/db/util.py:50-59 | the result is the integer nearest to the amount, the even one on a tie |
| `Lamports.NearestIsUnique` | backend/app/db/util.py:50-59 | rounding half to even has one answer only |
| `Lamports.QuantizeMonotone` | backend/app/db/util.py:50-59 | rounding never reorders two amounts, which is why a clamp made before rounding survives it |
| `Sizing.CopySize` | backend/app/decision/sizing.py:15-52 | the clamps in source order compute the minimum of desired size, position limit and headroom, and each audit note appears exactly when its limit acted |
| `Sizing.SizeMeans` | backend/app/decision/sizing.py:26-52 | in numbers: the size is the whole number of lamports nearest to the smallest of the wanted amount (the percentage of the leader's trade, or the fixed size), the position limit and what the exposure leaves; it is zero exactly when that number is below 1,000,000 |
| `Sizing.SizeWithinLimits` | backend/app/decision/sizing.py:33-52 | a taken size is above the dust floor, within the position limit, and leaves exposure within the limit, exactly for whole-lamport limits and within half a lamport otherwise |
| `Sizing.SizeMonotoneInLeader` | backend/app/decision/sizing.py:26-52 | a larger leader trade never makes the copy smaller |
| `Sizing.FractionalLimitOvershoots` | backend/app/decision/sizing.py:42-48 | the half lamport is real: a fractional limit can be overshot by rounding |
| `Safety.SafetyGuard.GateReasons` | backend/app/decision/safety.py:57-96 | each block reason is listed exactly when its rail blocks; a failing Redis read ends the Redis checks with one fail-closed reason; the list is empty exactly when every rail is clear |
| `Safety.SafetyGuard.RecordExecutionResult` | backend/app/decision/safety.py:100-106 | a success deletes the streak, a failure raises it and trips the stop at the limit; no other key changes |
| `Safety.SafetyGuard.RecordRealizedPnl` | backend/app/decision/safety.py:112-119 | the lamports are added to that day's counter only, and the stop trips when the total reaches the loss limit |
| `Safety.StreakCounts` | backend/app/decision/safety.py:100-106 | over any sequence of results the streak is the number of failures since the last success, on top of the streak before when there is none, and the stop trips exactly when some failure brings it to the limit |
| `Safety.CountersAddUp` | backend/app/decision/safety.py:108-119 | over any bookings each day's counter is the sum of what was booked on it, and the stop trips exactly when some booking brings its day to a loss of at least the limit |
| `Safety.SafetyGuard.TripEmergencyStop` | backend/app/decision/safety.py:128-129 | only the stop flag changes |
| `Safety.SafetyGuard.ClearEmergencyStop` | backend/app/decision/safety.py:142-143 | the stop flag and the streak are cleared together, the day's counter stays |
| `Safety.OpenIndex` | backend/app/execution/executor.py:191-199 | finds the open position of a token if and only if there is one |
| `Execution.FirstVerdict` | backend/app/execution/executor.py:439-450 | the verdict is positive exactly when some poll sees the transaction land before any sees it fail or raises, and an exception escapes exactly when a poll raises before any has a verdict |
| `Execution.Confirm` | backend/app/execution/executor.py:439-450 | the polling loop returns that verdict, an escaping exception included |
| `Execution.OneAnsweredSend` | backend/app/execution/executor.py:134-175 | for every sequence of network outcomes: at most one signature comes back, the other transactions on the network are the lost answers among the attempts used, and a run that does not raise ends with a final status and at most one position, exactly one if confirmed |
| `Execution.ReadyBuyIsSentExactly` | backend/app/execution/executor.py:387-408 | a quoted, built and signed live buy whose simulation reports balances reaches the network if and only if the payer loses at most 1.05 times the size plus a hundredth of a SOL; without balances a clean simulation suffices; after an errored or missing one the run goes on without it |
| `Execution.DrainingBuyIsNeverSent` | backend/app/execution/executor.py:387-408 | when every simulation fails or reports an outflow above that cap, nothing reaches the network and no position is asked for, whatever else is answered |
| `Execution.RunEndsExactly` | backend/app/execution/executor.py:134-175 | how every live run ends: the first answers after which it does not go on decide status, attempts, streak, cooldown, position and exception; without any it fails, feeds the streak and cools down; the conditions are written over the answers, with the drain cap in numbers |
| `Execution.PaperRunEndsExactly` | backend/app/execution/executor.py:134-175 | how every paper run ends: at the first quote, confirmed with its amount or failed without feeding the streak; without a quote failed, feeding it |
| `Execution.RunMovesTheRails` | backend/app/decision/safety.py:100-106 | a run starts the cooldown of its own token only, clears the streak or raises it by one and trips the stop at the limit, and never touches a day's counter |
| `Execution.RaisesExactly` | backend/app/execution/executor.py:313-354 | an exception escapes a run if and only if, live and with a key, some attempt's simulation raises or one of its polls does before any verdict, after only retried attempts |
| `Execution.BroadcastExactly` | backend/app/execution/executor.py:134-175 | something reaches the network if and only if a live attempt with a key is accepted by the node after only retried attempts |
| `Execution.DoubleSwapExactly` | backend/app/execution/executor.py:345-349 | two or more transactions of one order reach the network if and only if an attempt whose answer is lost is followed, through retried attempts, by another accepted one |
| `Execution.PhantomExactly` | backend/app/execution/executor.py:345-366 | a live run asks for a position without anything on the network if and only if a frozen client returned nothing for a sent attempt with a readable quote, after only retried attempts that lost no answer |
| `Execution.OpensExactly` | backend/app/execution/executor.py:353-385 | a live run asks for a position if and only if some attempt, after only retried ones, ends its polls without an exception and has a readable fill |
| `Execution.LostAnswerSwapsTwice` | backend/app/execution/executor.py:345-349 | a first attempt with a lost answer and a second that lands: two swaps, one position, confirmed |
| `Execution.LostAnswerEndsAsFailure` | backend/app/execution/executor.py:173-175 | with one attempt a lost answer is a plain failure with a swap on the network and no position |
| `Execution.FrozenSendOpensPhantom` | backend/app/services/rpc.py:255-261 | a freeze between simulation and send opens a position with nothing on the network |
| `Execution.FailedSwapOpensPosition` | backend/app/execution/executor.py:439-450 | a swap seen to fail on chain opens a position and feeds no failure streak |
| `Execution.LandedFillConfirms` | backend/app/execution/executor.py:313-385 | a landed swap with a readable fill ends confirmed, asks for its position and resets the streak; with an unreadable fill it ends failed and asks for none; the earlier lost answers are on the network as well |
| `Execution.PaperFailureCountsExactly` | backend/app/execution/executor.py:134-175 | in paper mode a trade feeds the failure streak if and only if none of its attempts is quoted |
| `Execution.PaperBuyTripsTheStop` | backend/app/execution/executor.py:173-175 | one unanswered paper buy trips the stop when one failure suffices |
| `Execution.BookedSaleLanded` | backend/app/execution/executor.py:230-255 | a live sale that is booked was broadcast and landed if and only if it was quoted |
| `Execution.SentSaleIsBookedExactly` | backend/app/execution/executor.py:246-255 | a live sale on the network is booked if and only if its signature came back and a poll sees it land; otherwise the position stays open |
| `Execution.SaleIsSentExactly` | backend/app/execution/executor.py:402-407 | the drain guard never stops a sale: it reaches the network if and only if it is live, quoted, built and signed with the key, its simulation ran without an error, and the node accepts it |
| `Execution.BookedProceeds` | backend/app/execution/executor.py:230-255 | a close books the proceeds of its quote, or without readable ones the market value to half a lamport; nothing exactly when a live quoted sale is not seen to land |
| `Execution.ClosedRowSays` | backend/app/execution/executor.py:257-271 | the closed row adds the proceeds to what was sold, to half a lamport, its result is what was sold less what was spent, and nothing else of it changes |
| `Execution.CopyExecutor.OpenPosition` | backend/app/execution/executor.py:454-469 | inserts a row whose spent amount is the trade size, or raises exactly when the token already has an open row |
| `Execution.CopyExecutor.LiveFill` | backend/app/execution/executor.py:313-385 | one live attempt at a buy or a sell leaves status, position, broadcast count and streak as the attempt's verdict says, drain guard included (`Execution.ReadyBuyIsSentExactly`), and raises exactly when the simulation, a poll or the insert does, changing nothing but the broadcast count and the trade |
| `Execution.CopyExecutor.PaperFill` | backend/app/execution/executor.py:284-311 | a paper fill books the quoted amount and starts the cooldown, fails the trade when the quote cannot be read, and raises exactly on a refused insert |
| `Execution.CopyExecutor.RunApproved` | backend/app/execution/executor.py:117-175 | a blocked trade fails and touches nothing else; a cleared one raises exactly when the specified run does or its insert is refused, leaving book and rails as they were, and otherwise ends with the trade, book and rails of that run, whose end `Execution.RunEndsExactly` states; the broadcasts are the run's in every case |
| `Execution.CopyExecutor.MirrorSell` | backend/app/execution/executor.py:177-280 | closes exactly the open position of the token if its own leader sold and the exit is valued, books its result on the counter, broadcasts exactly if a quoted live sale reaches the network, raises exactly when its simulation or a poll does, and otherwise leaves the book alone |
| `Desk.NextKeepsInv` | backend/app/execution/copytrader.py:139-175 | every step keeps the invariant, for any number of overlapping approvals: exposure, position count, pending and approved orders and the day's result minus the lamports at risk stay within their bounds |
| `Desk.CopyIsQueuedExactly` | backend/app/decision/evaluator.py:299-441 | a leader's buy is taken on by the idle worker if and only if the other gates hold, all rails can be read and are clear, the token has no open row and the rounded size is no dust; the order then has the token, the leader and the size nearest to the smallest limit, and nothing else changes |
| `Desk.GateLeavesRoom` | backend/app/decision/safety.py:70-81 | when the gate is clear, the order it lets through still fits, on top of the ones under way, under the exposure cap, the position count and the loss floor |
| `Desk.SoldKeepsInv` | backend/app/execution/executor.py:257-271 | a close at any proceeds keeps the invariant, also across midnight |
| `Desk.ExposureIsCapped` | backend/app/decision/safety.py:77-96 | in every reachable state, with at most k approvals ever overlapping: one open position per token, at most the allowed number (with approvals k - 1 more), and exposure at most the cap for k |
| `Desk.CapMeansTheLimits` | backend/app/api/copytrading.py:213-242 | for whole-lamport limits the cap is the exposure limit with approvals off, and strictly below exposure limit plus k position limits with approvals on; without overlap the position count is the configured one; a fractional exposure limit adds at most half a lamport |
| `Desk.DailyLossIsBounded` | backend/app/decision/safety.py:70-119 | over all runs, with at most k approvals ever overlapping, no day shows a loss as large as the daily limit plus the exposure cap for k |
| `Desk.CloseRaisesTheDifference` | backend/app/execution/executor.py:257-271 | a close raises the day's counter minus the lamports at risk by exactly the rounded proceeds |
| `Desk.CloseIsBookedOn` | backend/app/execution/executor.py:257-271 | the row is stamped with the day the close began, its result is what was sold less what was spent and goes to the counter of the day the close ended, the next one across midnight; no other counter or row changes |
| `Desk.BooksAgreeExactly` | backend/app/execution/executor.py:257-271 | a step keeps every day's counter equal to the results of the positions closed that day, if and only if it is not a non-zero close straddling midnight |
| `Desk.CounterIsSumOfCloses` | backend/app/decision/safety.py:108-119 | over whole runs without straddling closes each day's counter is the sum of the results closed that day |
| `Desk.StopHolds` | backend/app/decision/safety.py:57-82 | from the stop until a resume rows are only closed, except that each swap in flight at the stop, the worker's or an approved one, may add its own one row |
| `Desk.LossEndsTrading` | backend/app/decision/safety.py:112-119 | the close that reaches the daily loss limit trips the stop itself, so until a resume no order that was not in flight gets a row |
| `Desk.ResumeReopensExactly` | backend/app/decision/safety.py:142-143 | a resume lifts the stop and the streak and nothing else: the gate is then clear exactly when Redis answers and cooldown, day's loss, position count and exposure permit |
| `Desk.StopOpensExactly` | backend/app/execution/executor.py:124-134 | after the stop a row can still be added if and only if a swap, the worker's or an approved one, is in flight and attempts are allowed |
| `Desk.StopDoesNotRecallASwap` | backend/app/api/copytrading.py:217-243 | reachable states, stopped, in which the worker's swap and an approval under way still add their rows |
| `Desk.NothingIsRefusedWithoutApprovals` | backend/app/execution/executor.py:454-469 | with approvals off, in every reachable state, the order under way meets no open row of its token, so every position it asks for is booked |
| `Desk.LandedBuyIsBookedExactly` | backend/app/execution/executor.py:367-377 | a live buy that lands with a readable fill is booked if and only if its token has no open position; otherwise only the broadcast count changes |
| `Desk.BroadcastIsBookedExactly` | backend/app/execution/executor.py:339-385 | a live run with a swap on the network books it if and only if some attempt, after only retried ones, ends its polls without an exception and with a readable fill, and the token has no open position |
| `Desk.ApprovalConsumesExactly` | backend/app/api/copytrading.py:217-243 | an approval past its gate takes its order off the pending list if and only if the insert is not refused and no exception of a simulation or poll escapes; otherwise the order is pending again |
| `Desk.EscapedPollLosesTheSwap` | backend/app/execution/executor.py:439-450 | reachable runs in which a poll raises after the send: the worker's swap is on the network with no row, and the approved order is pending again and is swapped twice for one row |
| `Desk.RefusedApprovalRepeats` | backend/app/api/copytrading.py:239-243 | a reachable run in which n further approvals of one refused order broadcast n more swaps and change nothing else |
| `Desk.LiveCloseIsSoldExactly` | backend/app/execution/executor.py:230-255 | in live mode a close comes with one landed broadcast if and only if the sell was quoted |
| `Desk.UnquotedLiveCloseSellsNothing` | backend/app/execution/executor.py:230-246 | a reachable live close without a quote books a total loss and broadcasts nothing |
| `Desk.StraddlingCloseSplitsTheBooks` | backend/app/execution/executor.py:257-271 | a reachable close across midnight leaves counters and books apart |
| `Desk.OverlapOvershootsTheLimit` | backend/app/api/copytrading.py:199-217 | a reachable run in which two overlapping approvals open two positions where one is allowed |
| `Desk.CopyDesk.HandleBuy` | backend/app/execution/copytrader.py:155-175 | handling a leader's buy is the run evaluate, check, finish of the state machine, escaping exceptions included |
| `Desk.CopyDesk.ApproveTrade` | backend/app/api/copytrading.py:207-243 | approving is a gate step and a finishing step: rejected when a rail blocks, executed otherwise, and pending again when the run raises or the insert is refused |
| `Desk.CopyDesk.HandleSell` | backend/app/execution/copytrader.py:144-153 | handling a leader's sell is one sell step |
| `Delivery.NextKeepsInv` | backend/app/ingestion/fetcher.py:74-226 | every step of listener and writers, crashes and failed announcements included, keeps the protocol invariant |
| `Delivery.NothingIsLost` | backend/app/ingestion/fetcher.py:179-226 | every signature ever put on a stream is persisted, dropped at the last attempt, or still has an entry that is not acknowledged |
| `Delivery.AttemptsStayBelowMax` | backend/app/ingestion/fetcher.py:206-226 | attempt numbers never reach the maximum |
| `Delivery.DroppedMeansEveryAttempt` | backend/app/ingestion/fetcher.py:206-211 | a dropped signature had an entry for each attempt number |
| `Delivery.StepUsesWork` | backend/app/ingestion/fetcher.py:199-226 | every effective step of a writer uses up work, up to the trades a commit reports, so a requeue costs more than it adds |
| `Delivery.RetriesEnd` | backend/app/ingestion/fetcher.py:199-226 | between notifications the number of effective steps is bounded by the work left and the trades reported on the way |
| `Delivery.AnnouncedExactly` | backend/app/ingestion/fetcher.py:235-260 | over every run: a trade is announced if and only if some commit reports it as its k-th and more than k announcements of that commit's entry succeed |
| `Delivery.AllAnnouncedExactly` | backend/app/ingestion/fetcher.py:188-197 | all new trades of a commit are announced if and only if its entry got as far as its acknowledgement |
| `Delivery.AnnounceableExactly` | backend/app/ingestion/fetcher.py:188-226 | some continuation announces a trade of a commit if and only if it is announced already or the entry is still written: not failed, requeued, dropped, dead or acknowledged |
| `Delivery.RecoverableExactly` | backend/app/ingestion/fetcher.py:142-160 | without a new notification an unpersisted signature can still be persisted if and only if it has a waiting or held entry |
| `Delivery.OrphanIsNeverWritten` | backend/app/ingestion/fetcher.py:142-160 | an entry whose consumer died is not persisted by any continuation without a new notification |
| `Delivery.ClaimLeaksExactly` | backend/app/ingestion/ws_listener.py:155-224 | a claimed signature is on a stream after an enqueue exactly if it was there before, was added, or its claim was released on the non-priority branch |
| `Delivery.PriorityClaimLeaks` | backend/app/ingestion/ws_listener.py:167-193 | a priority notification whose add fails leaves a claim with nothing on any stream |
| `Delivery.ClaimedExactly` | backend/app/ingestion/ws_listener.py:165-218 | over every run: a signature is claimed if and only if some notification took its claim (any but an ordinary one whose enqueue failed and was released) and it has not expired since |
| `Delivery.QueuedExactly` | backend/app/ingestion/ws_listener.py:165-218 | over every run: retries aside, a signature is on the streams exactly once for each added priority notification and for each other added one that came while its claim was not held |
| `Delivery.BatchSettles` | backend/app/ingestion/fetcher.py:109-226 | what a batch leaves behind, message by message: committed ones are persisted and announced up to a failure, finished ones acknowledged, every other one back on the stream with one attempt more, or dropped at the last |
| `Delivery.WritesGoUpInSlots` | backend/app/ingestion/fetcher.py:46-50 | of two messages a batch writes, the one written earlier has the smaller slot, or the same slot and a signature not greater |
| `Sorting.TextLeExactly` | backend/app/ingestion/fetcher.py:46-50 | a signature is at or before another when it is a beginning of it or has the smaller character where they first differ |
| `Delivery.StoringOrderIsFixedExactly` | backend/app/ingestion/fetcher.py:46-50 | a batch is stored in one order, whatever order it was delivered in, if and only if no two different messages of it carry the same signature of the same slot (the concurrent fetches themselves keep the delivery order) |
| `Delivery.SortDistinct` | backend/app/ingestion/fetcher.py:115-124 | sorting a batch puts it in ascending order of slot and signature (`Delivery.WritesGoUpInSlots` says so in numbers) and neither loses nor repeats a message |
| `Delivery.IngestWriter.PersistAndAck` | backend/app/ingestion/fetcher.py:179-197 | storing comes before announcing, trade by trade, and announcing before acknowledging; a failure of either leaves a retry, of the second an already persisted one with the first trades announced |
| `Delivery.IngestWriter.RequeueOrDrop` | backend/app/ingestion/fetcher.py:199-226 | below the last attempt the signature is re-added with one attempt more before the entry is acknowledged; at the last it is dropped; each case with the whole new state |
| `Delivery.IngestWriter.ProcessBatch` | backend/app/ingestion/fetcher.py:109-131 | one round of the consumer loop, with any mix of stored, unannounced and unstored messages, is exactly a run of the protocol over the batch in ascending slot order, whose effect on each message is `Delivery.BatchSettles` |
| `Ledger.PositionRow.Update` | backend/app/ingestion/writer.py:260-334 | the field updates amount to folding one fill into the episode |
| `Ledger.LedgerIsSound` | backend/app/ingestion/writer.py:260-334 | over any trades: at most one open episode per wallet and token, every open one has bought something and holds bought minus sold above the dust level |
| `Ledger.EpisodesAreMeasured` | backend/app/ingestion/writer.py:297-334 | every row of every reachable table shows what its fills were: their sums, average prices whose product with the tokens is the SOL traded, first and last trade times and their count; it is closed exactly when at most a two-hundredth of what it bought is left or nothing was bought, and then has closing time, holding time and, where SOL was spent, an ROI that times the SOL spent is the result |
| `Ledger.SaleBooksAverageCost` | backend/app/ingestion/writer.py:297-317 | a buy books no result; a sale books its SOL less its tokens at the average price of everything its episode bought before it |
| `Ledger.TotalsAreConserved` | backend/app/ingestion/writer.py:280-310 | per wallet and token the episodes together hold exactly the traded tokens and SOL |
| `Ledger.HistoriesFit` | backend/app/ingestion/writer.py:260-334 | every episode is the replay of a history of its own fills that starts with a buy unless it is a lone sell |
| `Ledger.HistoriesPartition` | backend/app/ingestion/writer.py:260-334 | the histories together contain every fill exactly as often as it was traded |
| `Ledger.ResultWithinBand` | backend/app/ingestion/writer.py:280-310 | an episode's realised result lies between selling proceeds minus its dearest and minus its cheapest buy price times the tokens sold |
| `Ledger.ResultAtAverageCost` | backend/app/ingestion/writer.py:280-310 | with all buys before all sells the result is proceeds minus average price times tokens sold |
| `Writer.TransactionWriter.UpsertWallet` | backend/app/ingestion/writer.py:57-81 | first sighting moves back, last sighting forward, nothing else changes |
| `Writer.TransactionWriter.SetCreatorIfUnset` | backend/app/ingestion/writer.py:105-117 | the first recorded creator stays |
| `Writer.TransactionWriter.InsertTrade` | backend/app/ingestion/writer.py:192-246 | inserts and reports a trade exactly when its key is new |
| `Writer.TransactionWriter.UpdatePosition` | backend/app/ingestion/writer.py:260-334 | posts the fill at its SOL value, divided by the SOL price for stable quotes (`Writer.PersistMovesTotals`), to the ledger and touches no other table |
| `Writer.TransactionWriter.PersistParsedTransaction` | backend/app/ingestion/writer.py:337-374 | the tables and the returned new events are those of the specification, whose rows `Writer.PersistSays` and whose totals `Writer.PersistMovesTotals` state |
| `Writer.PersistAbsorbs` | backend/app/ingestion/writer.py:337-374 | persisting loses no earlier row, and afterwards everything the transaction could write is there |
| `Writer.PersistSays` | backend/app/ingestion/writer.py:57-374 | what each table says after a transaction, row by row and written out: sighting spans of wallets, first sighting, venue and creator of tokens, pools and trades as described by the first event that names them, prices in the quote and in dollars, and the transaction's own rows; everything else is unchanged |
| `Writer.PersistMovesTotals` | backend/app/ingestion/writer.py:247-258 | the new trades raise the token and SOL totals of a pair by their tokens and by their worth: the quote itself for wrapped SOL, and for a stable coin at price p > 0 the x with x p equal to the quote; other trades move nothing |
| `Writer.UnvaluedLeavesPositions` | backend/app/ingestion/writer.py:247-258 | a transaction without an event of such worth leaves the positions as they were |
| `Writer.AbsorbedIsNoop` | backend/app/ingestion/writer.py:337-374 | a transaction whose rows are there changes no table and yields no event, under any SOL price |
| `Writer.ReplayIsIdempotent` | backend/app/ingestion/writer.py:337-374 | any feed with arbitrary repeats of timed transactions, under any prices, leaves all tables and reported new events as its first occurrences do |
| `Writer.FirstOccurrencesMean` | backend/app/ingestion/writer.py:337-374 | the first occurrences of a feed hold every delivered transaction, each once |
| `Writer.ReportedAreDistinct` | backend/app/ingestion/writer.py:337-374 | a transaction reports each new trade once |
| `Writer.ReplaySafeExactly` | backend/app/ingestion/parsers/util.py:57-61 | persisting a transaction again at any moment and price changes nothing and reports nothing new, if and only if it carries its block time |
| `Writer.UntimedReplayAddsARow` | backend/app/ingestion/parsers/util.py:57-61 | an untimed transaction adds a row at every moment at which its signature has none |
| `Writer.PositionsAreTheLedger` | backend/app/ingestion/writer.py:337-374 | whatever was delivered, the positions table is the ledger of the trades inserted, each folded once and in order |
| `Writer.DeliveredLedgerIsSound` | backend/app/ingestion/writer.py:260-374 | after any feed of valid transactions the positions table has at most one open episode per wallet and token, each above dust |
| `Pipeline.ParsedEventsAreValid` | backend/app/ingestion/parsers/util.py:175-226 | the events inferred for the fee payer have positive token and quote amounts and consecutive indices |
| `Pipeline.StoredEventsReportBalances` | backend/app/ingestion/parsers/util.py:175-226 | every stored event is a trade of the fee payer: a buy if and only if its balance of the token rose, for the amount by which it changed, quoted in the mint it names by an opposite flow of that mint, and price times tokens is the quote |
| `Pipeline.NativeTradeReachesTheLedger` | backend/app/ingestion/writer.py:337-374 | from lamports to the ledger: a payer in one slot who pays or receives q >= 500,000 lamports beyond fee and tips for one token, stored for the first time, moves the totals of that pair by exactly the token change and q / 10^9 SOL, on the bought or on the sold side |
| `Pipeline.PersistedIsCommitted` | backend/app/ingestion/fetcher.py:179-197 | in every run the persisted signatures are those of its commits |
| `Pipeline.DeliveredOnceInTheTables` | backend/app/ingestion/fetcher.py:9-13 | for every run of the protocol, however often it writes, tables and reported events are those of each transaction's first write, and everything of a persisted transaction is in the tables |
| `Pipeline.StreamedIsStored` | backend/app/ingestion/fetcher.py:9-13 | of every signature put on a stream the transaction is in the tables, was dropped at the last attempt, or has an un-acknowledged entry |
| `Pipeline.InferredLedgerIsSound` | backend/app/ingestion/writer.py:260-334 | feeding inferred transactions in any order and with any repeats keeps the positions table sound |
| `Pipeline.BatchIsFedInSlotOrder` | backend/app/ingestion/fetcher.py:115-124 | the commits of a batch reach the ledger in ascending order of slot, signatures breaking ties |
| `Pipeline.TradeIsAnnouncedExactly` | backend/app/ingestion/fetcher.py:235-260 | over every run of the protocol: a trade is announced if and only if the first commit of its transaction reports it as its k-th and more than k announcements of that commit's entry succeed |
| `Pipeline.CanBeAnnouncedExactly` | backend/app/ingestion/fetcher.py:188-226 | a reported trade is announced by the run or by some continuation, whatever it fetches, if and only if it is announced already or the entry of its commit is still written |
| `Pipeline.AnnouncementCanBeLost` | backend/app/ingestion/fetcher.py:235-250 | for any timed transaction with one trade, a run that stores it, acknowledges every entry and can never announce it, after a failed announcement; likewise after a death between commit and announcement |
| `RpcBudget.NextKeepsInv` | backend/app/services/rpc.py:96-167 | every interleaved step keeps, per key, credits equal to the increments within the limit plus the bypasses |
| `RpcBudget.GrantsAreExact` | backend/app/services/rpc.py:99-108 | for any interleaving the credits of a day number exactly min(limit, increments), polls included, when nothing bypassed the limit |
| `RpcBudget.DailySpendIsBounded` | backend/app/services/rpc.py:266-276 | requests charged to a day, retries included, never exceed main limit plus priority limit |
| `RpcBudget.CountersCount` | backend/app/services/rpc.py:99-108 | over every interleaving each counter is the number of increments made on it |
| `RpcBudget.TurnIsGrantedExactly` | backend/app/services/rpc.py:99-108 | a turn is granted exactly when its caller is exempt, Redis is down, or the counter before its own increment is below the limit |
| `RpcBudget.Budget.Acquire` | backend/app/services/rpc.py:144-167 | each turn is a step of the state machine among any steps of other processes, so its theorems cover the class: the counter rises by one per turn with Redis up, in the caller's own lane and day, and acquire returns at the first turn that is granted |
| `RpcBudget.AcquireCounts` | backend/app/services/rpc.py:144-167 | after an acquire the counter of a day is its old value plus the increments of the others and one for each own turn on that day with Redis up |
| `RateLimiter.Limiter.Wait` | backend/app/services/rpc.py:184-192 | the caller starts at the later of now and the next free slot, which moves one interval past that start |
| `RateLimiter.Limiter.Serve` | backend/app/services/rpc.py:178-192 | a sequence of calls gets the start times of the recurrence |
| `RateLimiter.ClosedForm` | backend/app/services/rpc.py:178-192 | a start is the maximum over earlier arrivals of arrival plus one interval per position between |
| `RateLimiter.Spacing` | backend/app/services/rpc.py:178-192 | granted slots k apart are at least k intervals apart |
| `RateLimiter.EarliestSchedule` | backend/app/services/rpc.py:178-192 | no schedule respecting arrivals and spacing starts any call earlier |
| `RateLimiter.WindowHoldsAtMost` | backend/app/services/rpc.py:178-192 | a window of width W holds at most ceil(W / interval) starts |
| `RateLimiter.Call` | backend/app/services/rpc.py:263-313 | one budget credit per HTTP attempt, at most retries plus one attempts, every attempt but the last asked for another, and each sleep is the server's hint or the doubled back-off |
| `RateLimiter.SleepMeans` | backend/app/services/rpc.py:263-306 | in numbers: a hinted sleep is the hint, the others last 0.5, 1, 2, 4, 8 and then 15 seconds; a result, an HTTP error that is not retryable and a permanent failure are not asked again |
| `Base58.DigitIsPosition` | backend/app/ingestion/parsers/raydium.py:66-76 | a character's value is its only position in the alphabet |
| `Base58.ReadNumber` | backend/app/ingestion/parsers/raydium.py:66-72 | the loop fails exactly on a foreign character and otherwise yields the base-58 value |
| `Base58.Decode` | backend/app/ingestion/parsers/raydium.py:66-76 | decoding fails exactly on a foreign character and otherwise returns the reference decoding |
| `Base58.RebaseInverts` | backend/app/ingestion/parsers/raydium.py:66-76 | changing base with leading zeros kept is undone by changing back |
| `Base58.DecodeEncode` | backend/app/ingestion/parsers/raydium.py:66-76 | decoding an encoded byte string gives it back, for all byte strings |
| `Base58.EncodeDecode` | backend/app/ingestion/parsers/orca.py:56-66 | encoding a decoded string gives it back, for all strings over the alphabet |
| `Base58.OnesAreZeros` | backend/app/ingestion/parsers/orca.py:56-66 | leading ones correspond to leading zero bytes one for one |
| `Base58.ByteCount` | backend/app/ingestion/parsers/raydium.py:73-76 | the byte length computed from the bit length is the length of the base-256 numeral |
| `Dataset.PairSnapshots` | backend/app/analytics/ml/dataset.py:217-237 | the two-pointer walk yields the rows of the quadratic search, early exit included, and its pointer advances at most once per snapshot |
| `Dataset.RowsMean` | backend/app/analytics/ml/dataset.py:217-237 | a row pairs a snapshot with the earliest one at least the gap later, if that one is labelled |
| `Dataset.BisectRight` | backend/app/analytics/ml/dataset.py:80-86 | the insertion point splits the times into at most and above the moment |
| `Dataset.AsOf` | backend/app/analytics/ml/dataset.py:71-86 | the lookup returns the latest snapshot at or before the moment, or nothing exactly when all are later |
| `Dataset.SortKnown` | backend/app/analytics/ml/dataset.py:71-86 | restricting to what is known at a moment commutes with sorting |
| `Dataset.NoLookAhead` | backend/app/analytics/ml/dataset.py:80-86 | later snapshots never change a feature |
| `Dataset.MatchesAgreeExactly` | backend/app/evaluation/prediction_eval.py:117-140 | training from the buy's block time and grading from the prediction's moment, whichever is earlier, find a close at the same time, or both none, if and only if the pair closes neither between the two moments nor only after the earlier window, whatever the order, extra candidates or window cutoff |
| `Dataset.LabelsMean` | backend/app/analytics/ml/dataset.py:161-175 | a label exists exactly when the pair closes after the moment and within the horizon, and says whether an earliest of those closes made a profit; the same of grading from its own moment |
| `Dataset.LabelsAgreeExactly` | backend/app/evaluation/prediction_eval.py:117-140 | after a close between the two moments the labels agree if and only if the later window also holds a close, its first one with the same label; otherwise if and only if no close falls only after the earlier window, so without a close in between, which a caller can check, labels agree exactly when the matches do |
| `Dataset.QuickSellIsNeverGraded` | backend/app/evaluation/prediction_eval.py:117-140 | a close between buy and prediction is a training label that grading never finds |
| `Dataset.LabelsAgree` | backend/app/analytics/ml/dataset.py:161-175 | with buy and prediction at one moment, moments and labels of the matches always agree |
| `Dataset.DistinctTimesAgree` | backend/app/evaluation/prediction_eval.py:126-140 | distinct close times satisfy the condition for agreement |
| `Dataset.OrderNeverMattersExactly` | backend/app/analytics/ml/dataset.py:161-175 | a label is independent of the order of equal close times if and only if tied earliest closes share it |
| `Dataset.TiedClosesDependOnTheOrder` | backend/app/analytics/ml/dataset.py:161-175 | two episodes closed at one moment with different results: the label is that of whichever the database returns first |
| `Drawdown.ScanAll` | backend/app/analytics/wallet_metrics.py:144-167 | the single pass keeps the four variables of the specification |
| `Drawdown.ScanMeans` | backend/app/analytics/wallet_metrics.py:144-167 | after n positions those variables are the curve, its peak, its largest fall and its largest relative fall |
| `Drawdown.MaxDrawdown` | backend/app/analytics/wallet_metrics.py:144-167 | over the positions in closing order the result is the largest fall over all pairs of points and the largest fall from a positive peak relative to it |
| `Drawdown.OrderedByClose` | backend/app/analytics/wallet_metrics.py:150-150 | the pass runs over all the positions, each as often as listed, in ascending order of closing time, an open time standing for a missing one |
| `Drawdown.FractionMeans` | backend/app/analytics/wallet_metrics.py:163-166 | the relative fall at a point exists exactly when the highest point so far is positive, and times that point it is the fall |
| `Drawdown.MaxDropIsUnique` | backend/app/analytics/wallet_metrics.py:144-167 | the largest fall is one number |
| `Drawdown.DrawdownCoversTheLoss` | backend/app/analytics/wallet_metrics.py:144-167 | the drawdown is never below zero nor below the wallet's total loss |
| `Swaps.TokenBalanceDeltas` | backend/app/ingestion/parsers/util.py:78-96 | the dictionary holds exactly the holdings with a non-zero net change over all token accounts, with that change |
| `Swaps.AmountMeans` | backend/app/ingestion/parsers/util.py:83-92 | the amount of a row is its raw amount with the decimal point moved left once for each decimal |
| `Swaps.RowCounts` | backend/app/ingestion/parsers/util.py:83-92 | one more row adds its amount to its own holding, and nothing when owner, mint or amount is missing |
| `Swaps.HeldOfPermutation` | backend/app/ingestion/parsers/util.py:83-95 | the order in which token accounts are listed does not matter |
| `Swaps.NativeSolDelta` | backend/app/ingestion/parsers/util.py:116-132 | the loops compute the owner's lamport change with fee and tips added back for the fee payer, in SOL (`Swaps.NativeMeans`) |
| `Swaps.PayerIsFirstSigner` | backend/app/ingestion/parsers/util.py:40-46 | the fee payer is the first signer among the static keys, and without one the first key of all |
| `Swaps.NativeMeans` | backend/app/ingestion/parsers/util.py:116-132 | for every owner the flow times 1,000,000,000 is the sum of post minus pre over the owner's slots within both lists, for the fee payer plus the fee and the gains of tip accounts |
| `Swaps.NativeOfOneSlot` | backend/app/ingestion/parsers/util.py:116-132 | an owner with one slot i: the flow times 1,000,000,000 is post[i] - pre[i], for the fee payer plus fee and tips |
| `Swaps.NativeOfNoSlot` | backend/app/ingestion/parsers/util.py:116-132 | an owner without a slot inside both lists has no flow, the fee payer that of fee and tips |
| `Swaps.LandingCostIsInvisible` | backend/app/ingestion/parsers/util.py:116-132 | paying more in fees or tips never changes the fee payer's native flow |
| `Swaps.InferSwapEvents` | backend/app/ingestion/parsers/util.py:135-226 | the imperative inference returns the legs of the specification; what they are for a native-settled trade is `Swaps.NativeBuyIsFound` and `Swaps.NativeSellIsFound`, and in general `Swaps.FoundExactly` and `Swaps.LegsReportNetChanges` |
| `Swaps.NativeBuyIsFound` | backend/app/ingestion/parsers/util.py:202-209 | a payer who gives q >= 500,000 lamports beyond fee and tips, gains one token and has no wrapped SOL change: exactly one buy leg of that token for q / 10^9 SOL |
| `Swaps.NativeSellIsFound` | backend/app/ingestion/parsers/util.py:202-209 | the mirror image: exactly one sell leg |
| `Swaps.LegsReportNetChanges` | backend/app/ingestion/parsers/util.py:175-226 | every leg carries the trader's net token change and direction, a positive quote flow of opposite sign (the largest SOL flow where there is one) and their ratio as price |
| `Swaps.TwoLegsAreMirrored` | backend/app/ingestion/parsers/util.py:216-224 | token-to-token legs mirror each other, in mint order, with price product one |
| `Swaps.FoundExactly` | backend/app/ingestion/parsers/util.py:150-226 | an event is found if and only if a successful transaction trades one token against a quote flow or two tokens against each other |
| `Swaps.StableOrderMattersExactly` | backend/app/ingestion/parsers/util.py:158-162 | the order of the stable mints shows if and only if one token is paid in both stable coins and no SOL |
| `Swaps.StableOrderCanMatter` | backend/app/ingestion/parsers/util.py:158-162 | five tokens bought with USDC and USDT give a different event in the two orders |
| `Swaps.OnlyNetsMatter` | backend/app/ingestion/parsers/util.py:78-96 | transactions with the same net changes infer the same legs |
| `Swaps.ListingOrderIsIrrelevant` | backend/app/ingestion/parsers/util.py:78-96 | permuting the balance lists changes no event |
| `Parsers.ParseTransaction` | backend/app/ingestion/parsers/__init__.py:49-84 | the output is the deduplicated collection with indices 0 to n-1, the collected events are tagged exactly when a Jupiter program is present, and no other field or event changes |
| `Parsers.Number` | backend/app/ingestion/parsers/__init__.py:75-84 | the loop with its set of seen keys keeps the first event of each key and numbers the kept ones |
| `Parsers.DedupedMeans` | backend/app/ingestion/parsers/__init__.py:75-84 | kept events have distinct keys, are exactly the first of their key, and no key is lost |
| `Parsers.SameKeyExactly` | backend/app/ingestion/parsers/__init__.py:75-84 | two legs are the same event if and only if wallet, token, direction and quote mint agree |
| `Parsers.HighestPriorityIsKept` | backend/app/ingestion/parsers/__init__.py:55-61 | whatever a parser reports is in the output as reported by it or by a parser of higher priority |
| `Parsers.FallbackExactly` | backend/app/ingestion/parsers/__init__.py:62-69 | whatever is in the output was reported by a matching venue parser, or by a matching fallback parser if and only if every venue parser was silent |
| `Parsers.ReportedIsHeard` | backend/app/ingestion/parsers/__init__.py:55-69 | whatever a venue parser reports, or a fallback parser when every venue parser was silent, is in the output as its own event or one of the same key |
| `Parsers.InferredKeysDistinct` | backend/app/ingestion/parsers/util.py:216-224 | the legs inferred from one transaction never share a key |
| `Parsers.SameInferenceCountsOnce` | backend/app/ingestion/parsers/__init__.py:10-13 | several venues inferring from the same balances yield the trade once, from the first of them |
| `RiskWeights.ClampIsFinite` | backend/app/decision/token_risk.py:67-68 | clamping yields a number within the bounds, also for infinities and NaN |
| `RiskWeights.LoadedWeightsAreGood` | backend/app/decision/token_risk.py:243-275 | whatever the store holds, loaded weights are positive, sum to one and keep base ratios within a factor of four; loading raises exactly on a text nested too deeply, an infinite version or an oversized entry that no rejected one precedes |
| `RiskWeights.LoadedFollowsTheEntries` | backend/app/decision/token_risk.py:258-275 | readable entries: the effective weights add up to one and are to each other as the entries cut to half and twice their base, an absent one standing for its base |
| `RiskWeights.UnreadableFallsBack` | backend/app/decision/token_risk.py:255-273 | nothing stored, another shape, or an entry `float` rejects before any too large for it: the base weights as version 0 |
| `RiskWeights.OversizedEntryRaises` | backend/app/decision/token_risk.py:258-271 | an oversized entry raises unless a rejected one precedes it |
| `RiskWeights.LearnedCompositeIsBounded` | backend/app/decision/token_risk.py:113-122 | the learned composite is in [0, 100], so its clamp never acts, and within a factor of four of the base composite |
| `RiskWeights.CompositeOfSix` | backend/app/decision/token_risk.py:113-122 | the composite of the six components is the sum of six products of score and weight |
| `RiskWeights.Assess` | backend/app/decision/token_risk.py:113-122 | the score is the clamped composite and every component is stamped with the weight applied |
| `RiskWeights.TuneWeights` | backend/app/analytics/risk_learning.py:193-231 | weights are stored exactly when learning is on, there are samples enough and ten rugs, and some weight rises or falls by a hundredth or more; they are the normalised rescaled base |
| `RiskWeights.FactorFollowsTheRugs` | backend/app/analytics/risk_learning.py:208-219 | a component's factor rises by a hundredth per point its mean score over rugs exceeds that over other tokens, from a half to two: it gains weight exactly when it scores rugs hotter and loses it exactly when cooler; the means are stated over the rows |
| `RiskWeights.TunedFollowsTheFactors` | backend/app/analytics/risk_learning.py:219-224 | the stored weights add up to one and are to each other as base weight times factor |
| `RiskWeights.TunedIsGood` | backend/app/analytics/risk_learning.py:210-224 | tuned weights are positive, sum to one and keep base ratios within a factor of four |
| `RiskWeights.LoadKeepsExactly` | backend/app/decision/token_risk.py:258-275 | stored weights that sum to one load unchanged if and only if each is within half and twice its base |
| `RiskWeights.TunedWeightsSurviveExactly` | backend/app/analytics/risk_learning.py:219-224 | tuned weights load unchanged if and only if every factor is within half and twice their base-weighted mean |
| `RiskWeights.TunedWeightsCanBeReclamped` | backend/app/decision/token_risk.py:243-275 | with the real base weights the loader can change what the tuner stored |
| `RiskWeights.BaseIsGood` | backend/app/decision/risk_contracts.py:30-37 | the base weights are positive and sum to one |
| `Ranking.RankingStore.RecordOutcome` | backend/app/decision/ranking.py:36-49 | one result is folded into its leader's score and no other leader's changes |
| `Ranking.RankingStore.AdjustmentFactor` | backend/app/decision/ranking.py:53-68 | a leader's factor depends on its own results alone, however they interleaved with those of others |
| `Ranking.ClosedForm` | backend/app/decision/ranking.py:41-42 | the stored mean is the sum of 1/4 (3/4)^(n-1-i) roi_i and the count is n |
| `Ranking.OldResultsFade` | backend/app/decision/ranking.py:41-42 | k common newer results shrink any earlier difference to exactly (3/4)^k of it |
| `Ranking.FactorBounds` | backend/app/decision/ranking.py:60-67 | the factor stays in [0.5, 1.2] and is 1 below five results |
| `Ranking.FactorMeans` | backend/app/decision/ranking.py:53-68 | the multiplier in numbers: 1 below five results, then 1 plus a negative mean down to a half, and 1 plus two fifths of a positive one up to 1.2 |
| `Ranking.BetterHistoryNeverRanksLower` | backend/app/decision/ranking.py:60-67 | a history that is nowhere worse never gets the lower factor |
| `Ranking.LossesWeighMore` | backend/app/decision/ranking.py:62-67 | losses demote at least as much as the mirrored gains promote, strictly more unless the mean is zero or results are too few |
| `Ranking.NewerCountsMore` | backend/app/decision/ranking.py:24-24 | moving the better of two neighbouring results later never ranks the wallet lower |
| `Confidence.ScoreWallet` | backend/app/analytics/confidence.py:55-177 | returns the stored score and six explained terms whose weighted values add up to the raw score |
| `Confidence.ScoreMeans` | backend/app/analytics/confidence.py:55-177 | the answer in numbers: the five shown values with weights 35, 30, 15, 10 and 10 are win rate, profit, consistency, recency and experience to four decimals, each given by its defining equation, and the score is, to half a hundredth, 30 plus n / (n + 10) of what their weighted sum differs from 30 |
| `Confidence.ContributionsExplain` | backend/app/analytics/confidence.py:153-175 | the shown contributions add up to the raw score within half a hundredth each |
| `Confidence.EvidenceBoundsTheScore` | backend/app/analytics/confidence.py:153-158 | after n closed positions the score is within 30 n/(n+10) below and 70 n/(n+10) above the prior, the clamp never acts, and no evidence scores exactly 30.00 |
| `Confidence.HighScoreNeedsEvidence` | backend/app/analytics/confidence.py:153-158 | a score of t (before formatting) needs at least 10 (t-30)/(100-t) closed positions |
| `Confidence.NowhereWorseNeverScoresLower` | backend/app/analytics/confidence.py:66-158 | more wins, profit factor and 30-day result and less dispersion never lower the stored score, rounding included, a missing metric counting as its neutral value |
| `Confidence.UndefeatedScoresBelowExactly` | backend/app/analytics/confidence.py:83-94 | a record without a loss earns less than the same record with a profit factor if and only if that factor exceeds nine |
| `Confidence.UndefeatedCanScoreLower` | backend/app/analytics/confidence.py:83-94 | from ten closed positions on a profit factor of 99 gets the strictly higher stored score |

## Left out

- Network and storage clients (httpx, websockets, Jupiter, Solana signing, SQLAlchemy, Redis): their answers are parameters.
- `Writer.ReplayIsIdempotent`: two deliveries count as the same transaction when all fields the writer reads are equal; surrogate row ids are replaced by natural keys.
- `Delivery.NothingIsLost`: the main and the priority stream are one log, stream trimming is not modelled, and the pacing delays are dropped.
- `Desk.DailyLossIsBounded`: settings are fixed over a run.
- `Desk.ApprovalConsumesExactly`: an order that becomes pending again goes to the end of the list; the source has no order among pending trades. The approval endpoint's client is not given Redis and never sees a freeze (`backend/app/api/copytrading.py:225-236`), so there the frozen send is an answer too many.
- `Execution.DoubleSwapExactly`: the client's own repetitions of one request carry the same signed transaction and count once.
- `RpcBudget.DailySpendIsBounded`: only runs in which Redis stays reachable and no caller is exempt (the RPC client never asks for the exemption); otherwise the code deliberately exceeds the limit, and `RpcBudget.GrantsAreExact` counts by how much.
- `RateLimiter.Call`: the global freeze switch, which returns before the first attempt, and the latency metrics.
- `Execution.CopyExecutor.MirrorSell`: the dedup lock is a parameter; its expiry is not modelled, and the outcome recorded for ranking is the subject of `Ranking`.
- `Parsers.ParseTransaction`: what each venue parser returns is a parameter, and so is whether a Jupiter program is present; the pool attribution of each venue is not modelled.
- `Pipeline.InferredLedgerIsSound`: each transaction is parsed by one venue for its fee payer; `Parsers.SameInferenceCountsOnce` is what several venues amount to.
- `Swaps.InferSwapEvents`: slot, signature, block time, venue and raw payload of an event, which are copied unchanged; token decimals are natural numbers.
- `RiskWeights.Assess`: the six component scorers, the hard filters, the reuse of a stored assessment and the written row; scores in [0, 100] are a premise of `RiskWeights.LearnedCompositeIsBounded`, which each scorer's own clamp provides.
- `RiskWeights.TuneWeights`: the snapshot's version number and notes; the current weights are a parameter.
- `Ranking.RankingStore.RecordOutcome`: the read and the write of the stored state are one step, so updates lost between two processes are not modelled.
- `Confidence.ScoreWallet`: the explanatory texts; a profit factor or dispersion of exactly -1, for which the source divides by zero, is excluded by `Confidence.Divides`, and the bounds assume neither is negative.
- `Base58.Decode`: the instruction decoding around it in the two parsers.
- The evaluator's gates other than sizing, rails and open position are one boolean; its score composition is thresholds and weighted sums.
- The calibration curve and model metrics of the prediction evaluation: aggregation without state.
- The partial-exit count and medians of the wallet metrics: simple counting and sorting.
- Notifications, logging, metrics, error and quote texts on trades, authentication, the other API handlers, the frontend and the Telegram bot.
- Progress after a consumer crash, and exactly-once effects across Redis and the database: the code does not provide them.
- Machine-learning training and clustering: foreign code.
