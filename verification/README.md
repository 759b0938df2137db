# Trading platform core, verified

A Dafny model of the paper-trading platform's deterministic core, with proofs of what it keeps over whole runs. Each source file becomes a module. A class of the source becomes a class here, and every method is proved equal to a function on plain values (its `View()`); the theorems are about those functions and about runs built from them. `dafny verify dfyconfig.toml` checks the whole project.

Conventions. Floats are `real`: rounding is not the point of any property here. Identifiers are strings and position keys are `venue:symbol`, as in the source. Clocks, settings, random draws, market data and handler behaviour are arguments, so a theorem over all arguments covers every choice of them. What the source raises is a result value (`Outcome`, `raised`, an `Option`). A `Valid()` or `...Inv` predicate is what every operation keeps.

| area | files |
|---|---|
| compacting double ledger | `Position`, `CostBasis` (what the postings mean over whole logs), `Execution`, `Ledger`, `Dedupe`, `Account`, `Oms`, `OmsWindow`, `Reconciliation`, `LedgerRuns`, `LedgerPace`, `LedgerWitness` (concrete runs), `Marin` |
| paper executor | `Executor` (the class), `ExecutorRuns` (its steps and runs), `ExecutorProgress` (what a poll brings about, what orders pay), `ExecutorWitness` (a concrete run) |
| execution arithmetic | `Costs`, `Sizing`, `Pipeline`, `Rune`, `PostTrade` (the portfolio a trade leaves behind), `Routing`, `Simulator` |
| order book over a lossy channel | `Book`, `Feed` |
| state machines over runs | `KillSwitch`, `Lifecycle`, `LifecycleExits`, `LifecycleProgress` (what a tick owes every record), `Detector`, `Bus`, `Events`, `Store`, `Recorder`, `Replay`, `Consensus` |
| shared | `Common`, `Totals` |

## Where the code and its own words differ

The model follows the code. In each case below the exact condition is proved for all inputs, and where the code falls short a concrete input is given.

- agents/marin/agent.py:231-246 promises that no order straddles the seal cut. The pull-back loop stops at the first fill of an unrelated order, and `compact` then takes the smaller of the boundary and the excess, so a cut can fall inside a multi-fill order. From then on every reconciliation reports a fill that never went missing. Agreement survives a compaction if and only if the cut is clean (`CompactionAgreesIffClean`); the boundary alone is clean if and only if the straddling fills come last in the terminal prefix (`BoundaryCleanIffSuffix`). `CleanRunRaisesFalseAlarm` and `PullBackRaisesFalseAlarm` are runs from empty ledgers, one for each cause.
- execution/oms/__init__.py:187-212 records a fill before the move it implies is checked, so a refused move leaves the fill in the order manager and not in the account. That happens exactly to an unremembered fill, within the remaining quantity, of an order that is CREATED, SUBMITTING, CANCELLED, REJECTED or EXPIRED (`RefusedExactlyWhenStranded`); `LateFillIsStranded` is a run with a fill of a cancelled order.
- execution/paper/account.py:250-254 and execution/oms/__init__.py:73-76 say that a fill repeated after its id was forgotten is applied twice and that reconciliation then reports it. A repeat the order manager takes is reported if and only if the account still remembers the id (`LateRepeat`); with the account's window no longer than the manager's, as the two defaults of 10000 have it, it never is (`LateRepeatIsSilent`). When neither remembers, the account posts the fill again while its order, which holds the id already, gains nothing; both counters rise, both id sets stay as they were, the replay repeats the error, and at most the fee warning shows (`RepeatCountsTwice`). `LateRepeatGoesUnseen` is a run from empty ledgers. `ReconcileIsVerdict` gives the verdict on every run whatever fills arrive, including the one kind of repeat that silences an alarm already raised.
- execution/paper/executor.py:153-158 says a cancel of an unacknowledged order resolves once the order arrives. The stamped time is read only for an order whose cancel is pending, so the cancel is never honoured (`EarlyCancelIgnored`).
- The executor can request illegal moves in exactly two ways: a second cancel of an order whose cancel is pending (`CancelKeeps`), and the expiry of an unfilled order whose cancel lost its race (`PollKeeps`). `BothRaisesReachable` is a run from empty ledgers after which both raise. apps/orchestrator/orchestrator.py:746-750 asks for the first of the two itself: past the deadline every tick cancels whatever is live, so the second pass raises exactly when the first asked the venue for anything (`SecondPassRaises`), and so does every later one until a poll finds the cancel due (`CancelsRaiseUntilDue`).
- simulation/market.py:217-224 advances the sequence on a step that changes nothing and sends no message, so the next update looks like a loss even on a perfect channel. The book stays synchronised exactly when no change follows a quiet step (`QuietStepsLookLikeLoss`), or, with snapshots in between, none since the last of them (`WholeFeedSynchronises`); `QuietStepDesynchronises` is a feed of four versions.
- core/bus/memory.py:126-134 raises exactly when an unbounded drain would dispatch more than `max_cycles` events, even when the last of them emptied the queue (`DrainStops`); with handlers that publish nothing, exactly when more than `max_cycles` events are queued (`SilentDrainRaises`). `DrainRaisesOnEmptiedQueue` is one event and a bound of zero.
- agents/rune/core.py:61-68 says a size gate fails only when no reduction could help. Inside the 1e-9 band the request is kept although the headroom falls just short of it, and then a size gate blocks it (`SizeGatesBlockOnlyInBand`); `BandBlocksARequest` is such a request, short by the strategy limit. The headroom divides by one where the gates multiply by zero for an intent without legs, so there it can cut a size every gate would pass (`HeadroomIsLargest`).
- risk/limits/__init__.py:93-147 speaks of positions after the trade and of projected exposure, but the position, gross and leverage gates add a leg's whole notional to what is held even where the leg reduces it. They are safe, and exact only when no leg reduces a position (`PositionGateIsSafe`, `GrossGatesAreSafe`): a sale of all that is held is blocked by the gross gate (`ClosingTradeIsBlocked`). The net gate is exact whichever way the legs point (`NetGateIsExact`). The venue gate adds one leg at a time, so it is safe with one leg to a venue (`VenueGateIsSafe`), and two legs on one venue can leave it over its limit (`TwoLegsOnOneVenue`).
- strategies/consensus/engine.py:96 looks for required agents among the missing ones, and only agents with a configured weight can be missing. Every required agent has a usable opinion exactly when the result is complete and every required agent carries a weight (`CompleteMeansHeard`). core/config/settings.py:193-197 refuses settings in which one does not, and the orchestrator passes no list of its own (apps/orchestrator/orchestrator.py:556-561), so only an explicit `required` argument reaches the gap; `UnweightedAgentIsNotMissed` is such a call.

## Model

| member | source | states |
|---|---|---|
| Positions.PositionState.Apply | core/models/portfolio.py:58-84 | average-cost posting through open, increase, partial close, close, flip and flat snap, with the realised P&L it returns |
| Positions.BasisBalance | core/models/portfolio.py:58-84 | one posting keeps basis + cash balanced up to the residue flat-snapping drops |
| Positions.SaneKept | core/models/portfolio.py:58-84 | entry price stays within 0 and twice the dearest fill, and dust never carries a cost |
| Positions.ResidueBound | core/models/portfolio.py:58-84 | one fill loses at most 2 * FLAT_EPSILON * price to snapping |
| CostBasis.PositionIsPosted | execution/paper/account.py:106-125 | over any log a position is what its own fills make of it, in order |
| CostBasis.RealizedIsSummed | execution/paper/account.py:106-125 | the account's realised P&L is the sum of its positions' |
| CostBasis.FeesAreSummed | execution/paper/account.py:106-125 | the account's fees are the sum of its positions' and of the fills' |
| CostBasis.OpeningFills | core/models/portfolio.py:64-71 | fills that open or increase realise nothing and carry exactly what was paid, however many there are |
| CostBasis.ReducingFills | core/models/portfolio.py:72-83 | any log of fills that only reduce leaves the entry price alone and realises (price - entry) * quantity over each fill, in the position's direction |
| CostBasis.ClosingFill | core/models/portfolio.py:72-83 | a fill landing in the flat band leaves nothing and realises on what it closed |
| CostBasis.FlipIsCloseAndOpen | core/models/portfolio.py:72-83 | a flip is a close of exactly the old quantity and an opening of the rest at the fill's price |
| CostBasis.RoundTrip | core/models/portfolio.py:58-84 | from flat to flat through any fills in and any fills out, the realised P&L is what was sold less what was bought |
| Execution.PaperOrder.Transition | core/models/execution.py:181-188 | moves along the table or refuses and changes nothing; the history records the move |
| Execution.PaperOrder.ApplyFill | core/models/execution.py:190-202 | a fill of this order is recorded once and rolls the average price; another order's fill is refused |
| Execution.MovedInv | core/models/execution.py:46-95 | every history stays a path in the transition table |
| Execution.RecordedInv | core/models/execution.py:190-202 | filled = sum of fills, average * filled = sum of price * quantity, fees = sum of fees |
| Ledgers.ReplayConcat | execution/paper/account.py:179-201 | replaying a log is replaying a prefix and then the rest from where it ended |
| Ledgers.Conservation | execution/paper/account.py:106-125 | cash + basis - (initial + realised - fees) is exactly the sum of the residues of all fills, over any log |
| Ledgers.ReplaySane | core/models/portfolio.py:58-84 | no reachable position has a negative entry price or one above twice the dearest fill |
| Ledgers.ConservationBound | execution/paper/account.py:106-125 | after n fills priced at most P the identity is off by at most 2 * n * FLAT_EPSILON * P |
| Ledgers.ConservationExact | execution/paper/account.py:106-125 | the identity is exact when no fill lands in the flat band |
| Dedupe.Trim | execution/paper/account.py:247-258 | the id set stays equal to the deque's contents, which are the latest ids up to the limit |
| Dedupe.BoundedMemoryRefines | execution/paper/account.py:106-113 | a bounded id window accepts what an unbounded memory accepts if and only if every redelivery comes in time |
| Accounts.PaperAccount.ApplyFill | execution/paper/account.py:106-125 | a new fill updates cash, position, P&L, fees, log and window; a remembered id changes nothing |
| Accounts.PaperAccount.RecomputeFromFills | execution/paper/account.py:179-201 | replays the tail onto copies of the checkpoint, whatever the running totals say |
| Accounts.PaperAccount.Seal | execution/paper/account.py:209-245 | folds at most `count` fills of the log into the checkpoint and keeps the rest |
| Accounts.Folded | execution/paper/account.py:209-245 | the new checkpoint is the old one after replaying the sealed prefix, fees included |
| Accounts.TailReplayIsRunning | execution/paper/account.py:179-201 | checkpoint + tail always replays to the running totals |
| Accounts.SealingIsInvisible | execution/paper/account.py:209-245 | for any interleaving of fills and seals, running state = checkpoint + tail = replay of all accepted fills, and sealed + resident = applied |
| Accounts.BoundedWindowRefines | execution/paper/account.py:247-258 | the account ends as one that remembers every id would, if and only if redeliveries come in time |
| Orders.OrderManager.Create | execution/oms/__init__.py:89-127 | registers a fresh order under its id and counts it |
| Orders.OrderManager.Transition | execution/oms/__init__.py:150-157 | moves a known order as the table allows; an illegal move is counted and changes nothing else |
| Orders.OrderManager.MarkUnknown | execution/oms/__init__.py:159-170 | leaves a terminal order alone, otherwise moves it to UNKNOWN |
| Orders.OrderManager.ApplyFill | execution/oms/__init__.py:187-212 | duplicate, unknown order, overfill, illegal move or applied, with the exact new state of each |
| Orders.OrderManager.Compact | execution/oms/__init__.py:243-264 | archives exactly the terminal orders with no unsealed fill, and the archive absorbs their totals |
| Orders.FillInv | execution/oms/__init__.py:187-212 | any delivery keeps every order's invariant and the id window |
| Orders.EveryOutcome | execution/oms/__init__.py:187-212 | which deliveries are duplicates, unknown or overfills, and what each counts, on the manager before the call |
| Orders.RefusalsAreCounted | execution/oms/__init__.py:150-157 | a transition the table refuses is counted and moves nothing; one it admits is carried out and not counted |
| Orders.CompactKeepsExactly | execution/oms/__init__.py:243-264 | an order is kept exactly when it may still move or holds an unsealed fill, and what is kept is unchanged |
| Orders.DoneExactlyWhenTaken | execution/oms/__init__.py:187-212 | a fill is applied exactly when its id is not remembered, its order is resident with room and its status is one that may still be traded or is full; whether the order holds the fill already is not asked |
| Orders.RefusedExactlyWhenStranded | execution/oms/__init__.py:187-212 | a fill is booked and its move refused exactly for an unremembered, fitting fill of an order never sent or ended unfilled |
| OmsWindow.BoundedOmsRefines | execution/oms/__init__.py:238-241 | over any run of creates, transitions, deliveries and compactions from an empty manager, the bounded window ends every call as a memory that forgets nothing if and only if redeliveries come in time, and then the managers agree |
| MarinAgent.Marin.Reconcile | agents/marin/agent.py:69-227 | reports exactly the mismatches of every kind, and is ok exactly when none is critical |
| MarinAgent.Marin.FindSealBoundary | agents/marin/agent.py:231-260 | the terminal prefix pulled back over trailing straddling fills |
| MarinAgent.Marin.Compact | agents/marin/agent.py:262-285 | seals min(boundary, excess) fills and archives accordingly |
| MarinAgent.Marin.Run | agents/marin/agent.py:287-305 | compacts only what reconciled |
| LedgerRuns.InvReconciles | agents/marin/agent.py:69-227 | no false alarm: two ledgers in step reconcile |
| LedgerRuns.AgreementIsCleanness | agents/marin/agent.py:231-285 | over every run from empty ledgers, whatever fills arrive, the books are two views of one ledger exactly as long as every step was clean; reconciliation is ok while they are and, unless a fill is posted twice unnoticed, only while they are |
| LedgerPace.OkMeansInPace | agents/marin/agent.py:69-227 | between sound books reconciliation is ok if and only if the two fill counters and the two id sets are equal |
| LedgerPace.OkMeans | agents/marin/agent.py:69-227 | whatever state the books are in, reconciliation is ok exactly when they hold the same ids and counts, the running totals are within the tolerances of the replay, and every order is consistent |
| LedgerPace.OverwrittenTotalsAreFound | agents/marin/agent.py:99-142 | whatever agreeing books' running totals are overwritten with, the next reconciliation is ok exactly when it is within the tolerances of what they were |
| LedgerPace.OverwrittenOrderIsFound | agents/marin/agent.py:176-203 | whatever an order of agreeing books is overwritten with, its fills kept, the next reconciliation is ok exactly when it is consistent |
| LedgerPace.LostOrdersAreReported | agents/marin/agent.py:205-215 | an order is reported as unresolved exactly when its state is unknown, and that fails nothing |
| LedgerPace.StepTurns | agents/marin/agent.py:287-305 | which steps set agreeing books apart and which bring disagreeing ones together, decided before the step, whatever fill is delivered |
| LedgerPace.ReconcileIsVerdict | agents/marin/agent.py:69-305 | over every run from empty ledgers and with nothing assumed of the fills, reconciliation turns bad exactly on a parting step and good exactly on a mending one |
| LedgerPace.LateRepeat | execution/paper/account.py:247-258 | from books in step, a repeat the manager takes is reported if and only if the account remembers its id; otherwise it is posted twice |
| LedgerPace.LateRepeatIsSilent | execution/oms/__init__.py:73-79 | with the account's window no longer than the manager's no late repeat is ever reported |
| LedgerPace.RepeatCountsTwice | execution/paper/account.py:247-258 | when neither book remembers a fill of the log, a repeat leaves reconciliation ok and its order as it was, puts the account ahead of the orders by the whole fill, and shows as a fee gap of its fee |
| LedgerRuns.CompactionAgreesIffClean | agents/marin/agent.py:262-285 | compaction keeps the two views in step if and only if its cut leaves no order on both sides |
| LedgerRuns.BoundaryCleanIffSuffix | agents/marin/agent.py:231-260 | the boundary is clean if and only if straddling fills form a suffix of the terminal prefix |
| LedgerRuns.SingleFillsAlwaysClean | agents/marin/agent.py:231-260 | with one fill per order every cut is clean |
| LedgerRuns.CompactionReaches | agents/marin/agent.py:231-285 | compaction seals only fills of terminal orders, keeps at least the retained window, and stops short of it only where the next fill waits for an order that may still move |
| LedgerRuns.OrdersLeave | execution/oms/__init__.py:243-264 | an order leaves on a step exactly when MARIN compacts on it, the order may move no more and no fill of it is left in the account's log |
| LedgerRuns.WorkingOrdersStay | execution/oms/__init__.py:243-264 | over every run, an order that may still move is resident after the step, and after a compaction one that may not is resident exactly when the log still holds a fill of it |
| LedgerRuns.LostFillNeverForgotten | agents/marin/agent.py:75-97 | a fill only the order manager holds fails every later reconciliation, stops all compaction and stays resident |
| LedgerRuns.NothingIsLost | execution/oms/__init__.py:53-58 | on a clean run archive + resident and checkpoint + tail account for every order and fill that ever was |
| LedgerWitness.PullBackRaisesFalseAlarm | agents/marin/agent.py:257-259 | a run to the log A1 C1 B1 A2, sealed at 2 between A1 and A2 by the pull-back, after which reconciliation fails |
| LedgerWitness.CleanRunRaisesFalseAlarm | agents/marin/agent.py:278-283 | a run to the log A1 A2, sealed at 1 by the excess, after which reconciliation fails although nothing was lost |
| LedgerWitness.LateFillIsStranded | execution/oms/__init__.py:187-212 | a run in which a fill of a cancelled order stays in the order manager and out of the account |
| LedgerWitness.LateRepeatGoesUnseen | execution/paper/account.py:247-258 | a run of nine steps whose last delivers a fill of the log again: reconciliation stays ok with the account ahead of the orders by the fill |
| PaperVenue.PaperExecutor.Submit | execution/paper/executor.py:110-144 | creates the order and sends it, or rejects and counts it while execution is disabled |
| PaperVenue.PaperExecutor.Cancel | execution/paper/executor.py:148-162 | when a cancel is requested, stamped, ignored or raises, with the new pending map |
| PaperVenue.PaperExecutor.CancelAll | execution/paper/executor.py:164-168 | every order of a queue is cancelled in turn at its venue's latency, up to the first that raises, with the new pending map |
| PaperVenue.PaperExecutor.TryFill | execution/paper/executor.py:233-261 | one fill attempt against the book met, booked if there is one |
| PaperVenue.PaperExecutor.RecordFill | execution/paper/executor.py:263-277 | the account sees a fill only when the order manager took it |
| PaperVenue.PaperExecutor.PollOrder | execution/paper/executor.py:178-231 | one order advanced through timeout, arrival, cancel race, fill and expiry |
| PaperVenue.PaperExecutor.Poll | execution/paper/executor.py:178-231 | every order in turn; the first that raises ends the poll |
| PaperVenue.PollAllKeeps | execution/paper/executor.py:178-231 | a whole poll keeps order integrity, whether or not the books agree, and raises exactly when a visited order is stuck |
| ExecutorRuns.AttemptFits | execution/paper/executor.py:233-261 | a simulated quantity never exceeds what remains of the order |
| ExecutorRuns.FittingFillTaken | execution/oms/__init__.py:187-212 | such a fill is never refused as overfill or illegal move |
| ExecutorRuns.PollKeeps | execution/paper/executor.py:178-231 | a poll keeps quantities and whatever is known of the books' agreement, leaves other and terminal orders alone, and raises exactly on the one bad expiry |
| ExecutorProgress.MarketableTrades | execution/paper/simulator.py:91-136 | a marketable order takes at least what the first level within its limit has of what it asks for, once that exceeds the tolerance |
| ExecutorProgress.MarketableRests | execution/paper/simulator.py:91-136 | it trades nothing when no level is within its limit, the first that is has no size, or it asks for no more than the tolerance |
| ExecutorProgress.PassiveTrades | execution/paper/simulator.py:140-194 | a resting order trades exactly when the market or the flow through it, the draw and the queue allow, and then exactly what lies past the queue |
| ExecutorProgress.PollAdvances | execution/paper/executor.py:178-261 | on order and market facts alone: which orders a poll fills and by how much, and the status every unraised poll ends in, expiry and cancel race included |
| ExecutorProgress.OrdersPayTheirRate | execution/paper/executor.py:233-277 | over every run at given rates, every resident order has paid exactly the taker or maker rate on what it traded, on its own side and book, and resting orders trade at their limit only |
| PaperVenue.PollAllAdvances | execution/paper/executor.py:178-231 | the same for every order of a whole poll that does not raise |
| PaperVenue.CancelTakesEffect | execution/paper/executor.py:148-162 | a cancel of an order the venue has is due exactly once its latency has passed |
| ExecutorRuns.ExecWorkingOrdersStay | execution/oms/__init__.py:243-264 | over every executor run, an order that may still move is resident after the step |
| ExecutorRuns.CancelKeeps | execution/paper/executor.py:148-162 | cancelling raises exactly when a cancel is already pending |
| ExecutorRuns.CancelEachKeeps | execution/paper/executor.py:164-168 | cancelling a queue raises exactly when one of its orders already awaits its cancel, otherwise leaves awaiting exactly those the venue has, and touches no other order |
| ExecutorRuns.SecondPassRaises | apps/orchestrator/orchestrator.py:742-751 | a second pass over the same orders raises exactly when the first had anything to ask of the venue |
| ExecutorRuns.CancelsRaiseUntilDue | apps/orchestrator/orchestrator.py:742-751 | over every executor run, an order whose cancel is pending goes on awaiting it, and every cancel of it raises, until a poll finds the cancel due |
| ExecutorRuns.SubmitKeeps | execution/paper/executor.py:110-144 | submitting keeps order integrity and leaves every other order as it was |
| ExecutorRuns.EarlyCancelIgnored | execution/paper/executor.py:153-158 | a cancel time stamped before acknowledgement changes no poll |
| ExecutorRuns.OrderIntegrity | execution/paper/executor.py:178-277 | over every run of submits, cancels, polls and reconciliations, wherever compactions cut: filled <= ordered, filled = sum of fills, FILLED means full, histories are legal paths, terminal orders never change, raises only in the two ways; reconciliation is ok exactly while every cut so far was clean |
| ExecutorWitness.BothRaisesReachable | execution/paper/executor.py:148-231 | a run from empty ledgers after which a second cancel raises, and so does the expiring poll |
| Costs.WalkBook | execution/costs.py:42-83 | the loop computes the greedy walk |
| Costs.WalkSpendsWithinBook | execution/costs.py:42-83 | spends min(notional, depth) to within QTY_EPSILON at an average between the touch and the deepest level consumed |
| Costs.WalkMonotone | execution/costs.py:42-83 | a larger order never gets a better average, less slippage, or an unexhausted book a smaller one exhausts |
| Costs.SlippageIsShortfall | execution/costs.py:42-83 | in money, the slippage of a walk is what it spends above the touch or takes in below it |
| Costs.WalkByLevel | execution/costs.py:42-83 | every level before the last touched is taken whole, and of that one what is left to spend at its own price |
| Sizing.LadderMembers | agents/zephr/liquidity.py:125-128 | the ladder is the configured sizes up to the maximum, and the maximum itself, in ascending order when it joins them |
| Sizing.BuildSizingCurve | agents/zephr/liquidity.py:111-163 | every point of that ladder, the most profitable feasible one and the largest feasible size |
| Sizing.FeasibleMeans | agents/zephr/liquidity.py:76-152 | a size is feasible exactly when every leg's book holds it and the gross edge less the hedge and every leg's slippage, impact, fee, latency and spread reaches the minimum; the expected profit is that edge on the notional |
| Sizing.QuoteExpects | agents/zephr/liquidity.py:76-108 | a leg is expected to trade at the average it spends its notional at, no better than the touch, or at the touch when nothing would be filled |
| Sizing.ShrinkingIsSafe | agents/zephr/liquidity.py:76-108 | below a feasible size everything is feasible with at least its net edge |
| Sizing.LadderFeasibleBelowMaximum | agents/zephr/liquidity.py:111-163 | a ladder size is feasible if and only if it is at most the maximum economical notional |
| Sizing.IntentEdgeIsPointEdge | apps/orchestrator/orchestrator.py:653-692 | the intent's expected net edge, summed by kind of cost, is the chosen point's |
| Pipeline.ApprovedSizeKeepsEdge | agents/rune/core.py:71-76 | any size RUNE cuts a feasible intent to is feasible with at least the intent's edge |
| Pipeline.DecideSize | apps/orchestrator/orchestrator.py:653-730 | from curve to approval: nothing when no ladder size is feasible, otherwise what RUNE settles on for the most profitable one; an approval means trading is allowed and the trade is feasible at that size with at least the risk limit's edge |
| RuneRisk.ComputeFigures | core/models/portfolio.py:119-148 | gross, net, equity and per-leg exposures as sums over the positions |
| RuneRisk.RuneCore.Headroom | agents/rune/core.py:178-201 | the least of the candidate rooms, clamped at zero |
| RuneRisk.RuneCore.Evaluate | agents/rune/core.py:60-105 | approved exactly when the headroom reaches the minimum and every gate passes at the sized notional; the blocking gates otherwise |
| RuneRisk.RunGates | agents/rune/core.py:107-176 | every gate's result, and exactly those that do not pass |
| RuneRisk.SilenceIsUnknown | risk/limits/__init__.py:40-81 | a gate is UNKNOWN exactly when what it asks about was not reported |
| RuneRisk.RoomIsMaximal | agents/rune/core.py:178-201 | a notional is within the room if and only if it is within the request and passes all six size gates and, for an intent without legs, still fits the gross and strategy limits on its own |
| RuneRisk.HeadroomIsLargest | agents/rune/core.py:178-201 | a positive notional up to the request passes the size gates if and only if it is at most the headroom; without legs, if and only if it also fits the gross and strategy limits on its own |
| RuneRisk.SizeGatesBlockOnlyInBand | agents/rune/core.py:71-76 | a size gate blocks a decision that reached the gates exactly inside the keep-original band; without legs, only by the order and liquidity limits |
| RuneRisk.BandBlocksARequest | agents/rune/core.py:61-76 | a two-leg request of 1000, with the strategy limit leaving room for 1000 less 5e-10, is not approved, though 999 passes every size gate |
| PostTrade.NetGateIsExact | risk/limits/__init__.py:120-133 | the net gate passes exactly when the portfolio with every leg posted is within the net limit |
| PostTrade.GrossGatesAreSafe | risk/limits/__init__.py:107-152 | the gross and leverage gates pass only when the portfolio with every leg posted is within those limits, and exactly then when no leg reduces a position |
| PostTrade.PositionGateIsSafe | risk/limits/__init__.py:90-104 | the same of the position gate, with one leg to a position |
| PostTrade.VenueGateIsSafe | risk/limits/__init__.py:154-163 | with one leg to a venue, the venue gate passes only when every venue touched is left within the limit |
| PostTrade.ApprovedTradeFits | agents/rune/core.py:60-105 | an approval leaves the portfolio with every leg posted within its net, gross, leverage and, with one leg to a venue, venue limits |
| PostTrade.ApprovalMeans | agents/rune/core.py:60-176 | approved exactly when there is room for the minimum, the platform may trade, losses are within limits, and the settled size passes the size limits and leaves net exposure and leverage within theirs |
| PostTrade.ClosingTradeIsBlocked | risk/limits/__init__.py:107-117 | a sale of all that is held, leaving nothing, fails the gross gate |
| PostTrade.TwoLegsOnOneVenue | risk/limits/__init__.py:154-163 | two legs on one venue pass its gate and leave it over the limit |
| Routing.Veska.BuildPlan | execution/veska/engine.py:62-127 | one order per leg at its routed limit, or no plan and a counted failure |
| Routing.RoutedAt | execution/router/__init__.py:41-91 | a crossing leg expects the touch and allows the budget beyond it, a passive one is post-only at its own side's best |
| Routing.OrderSpends | execution/veska/engine.py:71-110 | an entry's quantity at its expected price is the authorised notional, an exit trades the quantity it was given |
| Simulator.ApplyVanishingLiquidity | execution/paper/simulator.py:74-84 | exactly the levels that did not vanish remain, in order |
| Simulator.SurvivorsAreMet | execution/paper/simulator.py:74-84 | every level that did not vanish is met, behind exactly those before it that did not, and nothing else is |
| Simulator.LevelsDrift | execution/paper/simulator.py:61-72 | in flight each level moves against the order by exactly the drift and keeps its size |
| Simulator.SimulateMarketable | execution/paper/simulator.py:91-136 | walks the limit-filtered, drifted and thinned book; raises exactly when bids drift down by their whole price |
| Simulator.MarketableFits | execution/paper/simulator.py:91-136 | a marketable fill is positive and at most what remains |
| Simulator.MarketableSpends | execution/paper/simulator.py:91-136 | on a stocked, sorted book a marketable order spends what it asks for at the touch as far as the depth within its limit goes, to within QTY_EPSILON; a seller never sells more than it asks for |
| Simulator.PassiveRests | execution/router/__init__.py:65-81 | a passive leg routed on an uncrossed book does not trade against that book until the market trades through to it |
| Simulator.PassiveFits | execution/paper/simulator.py:140-194 | a passive fill is positive, at most what remains, at the order's own limit |
| Simulator.NeverThroughLimit | execution/paper/simulator.py:99-136 | a limit order's average never goes through its limit |
| Simulator.SlippageBudgetHolds | execution/router/__init__.py:81-91 | a crossing leg routed with budget b and filled on any book met later slips by at most b, on both sides |
| LocalBooks.LocalOrderBook.ApplySnapshot | agents/tidal/book.py:42-51 | the listed levels, trimmed, at the snapshot's sequence, synchronised |
| LocalBooks.LocalOrderBook.ApplyDelta | agents/tidal/book.py:53-84 | applied, dropped as stale, refused before a snapshot, or desynchronised on a gap |
| LocalBooks.LocalOrderBook.Invalidate | agents/tidal/book.py:102-104 | marks the book unsynchronised and keeps its contents |
| LocalBooks.TopLevels | agents/tidal/book.py:93-100 | keeps exactly the levels with fewer than `depth` levels nearer the touch |
| LocalBooks.KeptIsBest | agents/tidal/book.py:93-100 | what is kept of bids is dearer than what is dropped, of asks cheaper |
| SyntheticFeed.OldNewsChangesNothing | agents/tidal/book.py:64-67 | any repeats and latecomers, anywhere in a delivery, leave the book exactly as the delivery without them does |
| SyntheticFeed.SynchronisedIffUnbroken | agents/tidal/book.py:53-84 | whatever updates arrive, in any order and any number of times, a synchronised book stays so exactly when what is new among them comes without a hole, and then stands at the last of it |
| SyntheticFeed.RepeatsChangeNothingOfAFeed | agents/tidal/book.py:53-84 | a lossless feed with any repeats and latecomers keeps the book synchronised exactly when no change follows a quiet step |
| SyntheticFeed.ResyncAskedForLosses | agents/tidal/book.py:42-104 | whatever is delivered to a new book, it asks for a snapshot exactly while it has lost track or been disconnected since the last one, and has counted every update it lost track on |
| SyntheticFeed.Diff | simulation/market.py:165-177 | changed levels at their new size, removals at size zero |
| SyntheticFeed.DiffRoundTrip | simulation/market.py:165-177 | applying diff(old, new) to old gives new, in whatever order it is listed |
| SyntheticFeed.SnapshotRoundTrip | simulation/market.py:179-200 | a snapshot's listing rebuilds the positive levels |
| SyntheticFeed.SyntheticBook.NextStep | simulation/market.py:204-238 | advances the version and sends an authentic, touch-first snapshot or update, or nothing when nothing changed |
| SyntheticFeed.AuthenticStays | simulation/market.py:204-238 | a message stays true of the history it was sent from |
| SyntheticFeed.SyntheticBook.Generate | simulation/market.py:204-238 | over any run of steps, what is sent is, version by version, the snapshot that is due or the update unless the version is quiet, and all of it is authentic of the whole history |
| SyntheticFeed.LossyChannel | agents/tidal/book.py:42-104 | under any loss, repetition, reordering or disconnect, a synchronised book is the generator's book at its own sequence |
| SyntheticFeed.LossyFeed | agents/tidal/book.py:42-104 | the same, for what arrives of anything a generator run sent |
| SyntheticFeed.QuietStepsLookLikeLoss | simulation/market.py:216-238 | a lossless in-order feed keeps the book synchronised exactly when no change follows a quiet step |
| SyntheticFeed.WholeFeedSynchronises | simulation/market.py:204-238 | all a generator run sends, snapshots included, leaves a book in step synchronised exactly when no change has followed a quiet step since the last snapshot, and then at the last version sent |
| SyntheticFeed.QuietStepDesynchronises | simulation/market.py:216-238 | a complete, ordered feed of four versions whose quiet third desynchronises the book |
| KillSwitches.KillSwitch.Engage | risk/kill_switch/__init__.py:167-200 | a new trigger is latched with its actions; a fired one changes nothing |
| KillSwitches.KillSwitch.Evaluate | risk/kill_switch/__init__.py:202-230 | runs every trigger in order and returns the newly engaged ones |
| KillSwitches.KillSwitch.Clear | risk/kill_switch/__init__.py:232-252 | opens the latch and forgets streaks, keeping the history |
| KillSwitches.KillSwitch.AcknowledgeCancelAll | risk/kill_switch/__init__.py:254-255 | drops the cancel request and nothing else |
| KillSwitches.KillSwitch.AcknowledgeFlatten | risk/kill_switch/__init__.py:257-258 | drops the flatten request and nothing else |
| KillSwitches.EvaluationDecides | risk/kill_switch/__init__.py:202-230 | one evaluation decides each trigger on its own reading, whatever the others do |
| KillSwitches.SwitchTracksRun | risk/kill_switch/__init__.py:40-57 | over every run, streaks are the true suffix since the last reset, triggers are those that fired, requests are unacknowledged demands |
| KillSwitches.FiresOnLastConfirmation | risk/kill_switch/__init__.py:130-141 | a trigger fires by evaluation exactly on its k-th confirmation in a row |
| KillSwitches.HistoryTellsAll | risk/kill_switch/__init__.py:167-252 | over every run the history names exactly the triggers that ever fired, resets or not |
| KillSwitches.WhatTriggersDemand | risk/kill_switch/__init__.py:39-57 | which triggers flatten, which cancel everything and which stop execution |
| KillSwitches.TradingStopsWithTriggers | core/models/ops.py:152-171 | trading is disallowed exactly while some trigger has fired since the last reset; acknowledging changes nothing about it |
| KillSwitches.NothingApprovedUntilReset | risk/limits/__init__.py:223-228 | from engagement until a manual reset RUNE approves nothing, whatever the intent, portfolio and limits |
| Lifecycle.Orchestrator.Transition | apps/orchestrator/orchestrator.py:189-222 | a legal move, releasing the symbol and the working notional on close; anything else is an illegal request |
| Lifecycle.Orchestrator.Release | strategies/cross_venue/detector.py:144-147 | frees the symbol only for the opportunity that holds it |
| Lifecycle.ReleaseIsOwn | strategies/cross_venue/detector.py:144-147 | a release gives up the opportunity's own claim and notional and nobody else's |
| Lifecycle.Orchestrator.Decide | apps/orchestrator/orchestrator.py:576-651 | the transitions of a decision, in order, for each way it can end |
| LifecycleProgress.DecisionLeavesTrace | apps/orchestrator/orchestrator.py:576-651 | what a decision adds to the record's path; with `TraceTells`, how far it got and what came of it |
| Lifecycle.Orchestrator.SubmitExit | apps/orchestrator/orchestrator.py:792-870 | closes when nothing is left to close, otherwise counts an attempt |
| Lifecycle.Orchestrator.AdvanceExit | apps/orchestrator/orchestrator.py:973-1020 | waits, retries within the allowance, or gives up and closes |
| Lifecycle.Orchestrator.Visit | apps/orchestrator/orchestrator.py:451-471 | one record's turn in a pass of the tick |
| Lifecycle.Orchestrator.Detect | strategies/cross_venue/detector.py:92-142 | claims every dislocated symbol not in flight, once |
| Lifecycle.Orchestrator.Seek | apps/orchestrator/orchestrator.py:473-537 | enters each detection and decides it or leaves it waiting |
| Lifecycle.Orchestrator.Tick | apps/orchestrator/orchestrator.py:231-280 | once warmed up: flatten, retry, manage, seek, in that order |
| Lifecycle.LifecycleHolds | core/models/opportunity.py:45-70 | over every run of ticks: no illegal request, legal histories, active map = open records, one open per symbol, working notional exactly for executed open records |
| LifecycleProgress.TickIsPerRecord | apps/orchestrator/orchestrator.py:448-471 | a tick takes every record through every pass once, on its own answers, whatever becomes of the others |
| LifecycleProgress.EndsExactlyWhen | apps/orchestrator/orchestrator.py:742-1020 | an open record is over after a tick exactly when it was refused, nothing filled, nothing is left to close, or its exit is over |
| LifecycleProgress.EveryRecordEnds | apps/orchestrator/orchestrator.py:448-1020 | over every run, a record nothing holds back is over within six ticks and as many more as there are exit attempts |
| LifecycleProgress.NothingBeginsUnasked | apps/orchestrator/orchestrator.py:231-280 | before warm-up a tick changes nothing; while trading is not allowed it begins nothing |
| LifecycleProgress.DetectionsEntered | apps/orchestrator/orchestrator.py:473-537 | which detections become records, and where each record stands after the tick that enters it |
| LifecycleExits.ExitsEnd | apps/orchestrator/orchestrator.py:973-1020 | over every run of ticks, an exiting record closes once more ticks have found its orders not live than it has attempts left, however long they are live in between, and stays closed |
| Detector.FindDislocation | strategies/cross_venue/detector.py:41-79 | cheapest ask against richest bid among usable venues, priced in bps of the reference |
| Detector.EdgeIsPriced | strategies/cross_venue/detector.py:41-79 | the edge is the price difference in bps of the reference given, or of the middle of the two prices |
| Detector.FoundAtUsableVenues | strategies/cross_venue/detector.py:41-79 | a dislocation is between usable venues quoting both sides, at their own prices, and none of those asks less or bids more |
| Detector.NoDislocationMissed | strategies/cross_venue/detector.py:41-79 | among uncrossed venues, whenever a profitable pair exists one is found, and none is wider |
| Detector.FoundExactlyWhenProfitable | strategies/cross_venue/detector.py:41-79 | among uncrossed venues a positive edge is found if and only if a profitable pair exists |
| Bus.InMemoryEventBus.Publish | core/bus/memory.py:81-89 | numbers an unnumbered event and queues it |
| Bus.InMemoryEventBus.Subscribe | core/bus/memory.py:91-103 | registers behind every other subscription |
| Bus.InMemoryEventBus.Unsubscribe | core/bus/memory.py:105-107 | removes one subscription, or nothing |
| Bus.InMemoryEventBus.DispatchOne | core/bus/memory.py:111-124 | pops one event and calls the subscriptions of that moment in order, counting failures |
| Bus.InMemoryEventBus.Drain | core/bus/memory.py:126-134 | dispatches until empty or out of cycles |
| Bus.EverySubscriberSeesItsSlice | core/bus/memory.py:111-124 | over every run, each subscription was called on exactly its type-filtered slice of the publication log since it joined, in order, once each; bus numbers increase along the log |
| Bus.SliceIsFiltered | core/bus/memory.py:111-124 | a slice holds each event of the types asked for, behind exactly those before it, and no other |
| Bus.EveryFailureCounted | core/bus/memory.py:111-124 | over every run the subscriptions' error counters add up to the handler calls that raised, and the active subscriptions stand in the order they joined |
| Bus.CalledInTurn | core/bus/memory.py:111-124 | a publication is offered to the subscriptions in their order: each handler is called next after those of the earlier ones that want the event, and its failure is its own |
| Bus.LogIsInReplayOrder | core/bus/memory.py:81-89 | publications the bus numbered under a clock that never goes back are already in replay order |
| Bus.DrainStops | core/bus/memory.py:126-134 | a drain raises if and only if an unbounded one would dispatch more than the bound, having dispatched one more; otherwise the queue is empty; and when it raises on an emptied queue |
| Bus.SilentDrainRaises | core/bus/memory.py:126-134 | with handlers that publish nothing, a drain raises if and only if more than the bound is queued |
| Bus.DrainRaisesOnEmptiedQueue | core/bus/memory.py:126-134 | one queued event and a bound of zero: the queue is emptied and the drain raises |
| Events.OrderingIsUnique | core/events/types.py:139-140 | two orderings of the same events by (ts, sequence, id) are the same sequence |
| EventStores.InMemoryEventStore.Append | storage/memory.py:66-80 | stores a new event, ignores a redelivery, refuses an unserialisable payload |
| EventStores.InMemoryEventStore.AppendMany | storage/memory.py:82-84 | stores a batch up to the first event that raises |
| EventStores.InMemoryEventStore.ReadSession | storage/memory.py:86-102 | sorts the session and yields what the query selects |
| EventStores.ReadIsSortedSelection | storage/memory.py:86-102 | filtering the sorted session is sorting the filtered one |
| EventStores.ReadSelects | storage/memory.py:86-102 | a read yields exactly the stored events of the kinds asked for from the first millisecond to the last, both included |
| EventStores.WindowsTile | storage/memory.py:86-102 | reading a span in two adjacent windows reads it whole, nothing missed and nothing twice |
| EventStores.ReadIsCanonical | storage/memory.py:66-102 | sessions given the same events read back the same under every query, whatever the order, batching and redelivery |
| Recording.SessionRecorder.Record | storage/recorder.py:92-95 | buffers an event and flushes when due |
| Recording.SessionRecorder.FlushIfDue | storage/recorder.py:75-90 | flushes on size or age, and only then |
| Recording.SessionRecorder.Flush | storage/recorder.py:97-119 | counts a batch as recorded or lost and always empties the buffer |
| Recording.NothingUnaccounted | storage/recorder.py:92-119 | after every step accepted = recorded + buffered + lost, event by event |
| Recording.BufferStaysBounded | storage/recorder.py:69-95 | after any step the buffer is empty, or smaller than its limit and younger than the interval; an event stays buffered exactly while both hold |
| Recording.RecordingRoundTrip | storage/recorder.py:97-119 | a flushed session that lost nothing reads back as the one ordering of everything accepted |
| Replaying.ReplaySession.Step | replay/engine.py:133-162 | publishes the next recorded event at a clock that never goes back |
| Replaying.ReplaySession.Run | replay/engine.py:164-177 | steps to the end or to the limit |
| Replaying.ReplayFollowsRecording | replay/engine.py:133-177 | every selected event once, in recorded order, at the later of start and its own time; the clock never runs backwards and ends at the later of start and the last event |
| Consensus.Combine | strategies/consensus/engine.py:36-108 | score, agreement, contributions with shares, missing and degraded agents, completeness |
| Consensus.ScoreBetween | strategies/consensus/engine.py:85 | the score lies within any bounds on the contributing signals |
| Consensus.ScoreIsMean | strategies/consensus/engine.py:54-85 | the score is the mean of the signals by weight, degraded discount and confidence, and zero when nothing carries any |
| Consensus.ClampIsIdle | strategies/consensus/engine.py:102-103 | the final clamp never moves the score |
| Consensus.ScoreMonotone | strategies/consensus/engine.py:54-85 | raising one agent's signal never lowers the score |
| Consensus.AbsentAgentsIrrelevant | strategies/consensus/engine.py:54-66 | absent, stale and unavailable agents might as well not be configured |
| Consensus.SharesSumToOne | strategies/consensus/engine.py:87-94 | shares sum to one whenever anything was argued |
| Consensus.ShareIsOwnPart | strategies/consensus/engine.py:87-94 | each share is the contribution's own part of the absolute weighted mass |
| Consensus.DegradedMeaning | strategies/consensus/engine.py:54-60 | an agent is listed degraded exactly when it carries a weight and its opinion is so |
| Consensus.MissingMeaning | strategies/consensus/engine.py:54-66 | an agent is missing exactly when it carries a weight and has no usable opinion |
| Consensus.CompleteMeaning | strategies/consensus/engine.py:96-107 | complete means every required agent that carries a weight has a usable opinion |
| Consensus.CompleteMeansHeard | core/config/settings.py:193-197 | every required agent has a usable opinion exactly when the result is complete and every required agent carries a weight, so under validated settings exactly when it is complete |
| Consensus.UnweightedAgentIsNotMissed | strategies/consensus/engine.py:44-107 | required in the call, without weight or opinion: the result is complete |

## Left out

- Venue adapters, parsers, Redis, SQLite and PostgreSQL back ends, the HTTP API and dashboard, LUMEN and other model-backed agents, logging, metrics and attribution statistics: I/O or advisory.
- The price process, volatility and the impact formula's fractional power: prices and target books are arbitrary, impact is any nondecreasing function.
- Day roll (`_roll_day`), mark prices, peak equity and drawdown tracking in the account; RUNE takes day P&L and peak equity as given.
- Order timestamps, reject reasons, the archive's per-status counts, `resolve_unknown` and the reject counter: they decide nothing in the modelled operations.
- Checkpoint positions and the archive are values: that the source copies them instead of sharing them is built in, not proved.
- The `fees_paid >= 0` validator of a position would refuse accumulated maker rebates; validators are modelled only for prices, sizes and quantities.
- Accounts.PaperAccount.ApplyFill: position keys are built from venue and symbol as in the source, so names containing a colon can collide here too.
- Orders.OrderManager.Transition: a direct move of an unfilled order to FILLED is carried out as the table admits, but `Valid()`, which says FILLED means full, is not promised after it; nothing in the source requests one.
- LedgerRuns.AgreementIsCleanness: fills reach the order manager before the account, as the executor delivers them, and order ids are minted fresh; the clean-step condition on a delivery speaks of every fill the account ever posted, which no caller holds, and `LedgerPace.StepTurns` decides the same step on what the books still hold.
- PaperVenue.PaperExecutor.Poll: the polling order of the source's dictionary and the market each order meets come in as arguments; trade-flow accrual and published events are not modelled.
- PaperVenue.PaperExecutor.CancelAll: the live orders, in the order of the source's dictionary, come in as an argument, and how many there were is not returned.
- PaperVenue.PaperExecutor.Submit: one planned order at a time; the source's loop over a plan is a sequence of these steps in `OrderIntegrity`.
- RuneRisk.RuneCore.Headroom: net exposure and leverage are gates but not part of the headroom, in the source as here; RUNE's utilisation report is left out.
- LocalBooks.LocalOrderBook.ApplySnapshot: exchange and receive timestamps are left out, and `LossyChannel` holds for books that fit the maximum depth, because a trimmed level is forgotten.
- KillSwitches.KillSwitch.Evaluate: the trigger predicates' readings are arbitrary, including ones that raise; trigger times are left out.
- Lifecycle.Orchestrator.Tick: collaborators do not fail in the middle of a call, and the raise of a repeated cancel past the deadline is stated of the executor (`ExecutorRuns.SecondPassRaises`) without being carried into the ticks; persistence, settling, measuring, protection and hedging reach the lifecycle only through what the environment answers; records are values in a map, working notional is counted by opportunity without its amount, and which closed records are forgotten is arbitrary.
- Bus.InMemoryEventBus.DispatchOne: one dispatcher, handler errors not re-raised, no handler drains; subscriptions are told apart by number, where the source compares dataclass fields; middleware appears as the recorder.
- Bus.InMemoryEventBus.Subscribe: an event still queued when a subscriber joins is delivered to it, so the statement is about dispatches since joining and not about publications, unlike core/bus/base.py:41-47.
- Recording.SessionRecorder.Flush: when a batch fails part-way the source counts all of it as lost though a prefix was stored; so does the model.
- Replaying.ReplaySession.Step: publishing is recorded, the bus it goes to and deterministic id generation are not modelled.
- Consensus.Combine: opinion ageing into qualities happens before the call.
