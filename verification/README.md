# A model of the trading core

The repository is a deterministic, event-sourced futures-trading core: one step function over recorded
events, with a position state machine, a risk gate, an order-book synchroniser, a bar and feature
pipeline and a fill simulator around it. This project models the parts that carry its guarantees and
proves them for all inputs and all runs. `dafny verify dfyconfig.toml` checks everything.

Two layers recur. A value layer holds functions on datatypes and the theorems about whole runs
(`Position`, `OrderBookSync`, `Bars`, `Features`, `Risk`, `EntryProtocol`, `GrossCap`, `Replay`,
`Simulator`, `ProtectiveFills`, `RateLimit`, `Oms`, `OrderTracker`, `EventLine`). A stateful layer has the
form of the source, classes whose methods update fields with the source's loops and early returns, and
each method is proved to take exactly the step of the value layer (`PositionManager`, `LocalOrderBook`,
`Market`, `Timeframe`, `StateEngine`, `RiskGate`, `LeaseTable`, `CoreState`, `PaperTrader`, `SimExecutor`, `RateLimiter`, `Telemetry`,
`OrderRegistry`, `OrderBook`).

The main results:

- **Order book.** Under any loss, duplication and reordering a synced book is the exchange's book.
- **Positions.** The stop never loosens, a locked profit has a floor, the protection ledger balances,
  no window is unprotected, and a life sends at most one full exit and one partial.
- **Entries.** One open position per symbol, capacity, leases and index, over every run.
- **Risk gate.** Every accepted size meets all limits at once after all cuts and roundings.
- **Gross cap.** Which configurations keep it over every run, at any fill price and at bounded ones.
- **Pipeline.** Timeframes commute; the truncated window agrees with the full history.
- **Replay.** Replaying the record, including what the trader itself wrote, gives the live commands
  event by event, for every engine logic and every simulator.
- **Smaller cores.** Optimal book walk and conservation of fills, sliding-window bounds, histogram
  accuracy, registry convergence, exactly-once fills, event-line round trip.

## What does not hold, and exactly when it does

Where the code falls short of a promise, the lemma states the exact condition:

- Exit orders can add up to more than the position, because the partial exit never takes the in-flight
  lock: `NeverOversellsIff`. It holds exactly when the partial exit is off or its fraction is not positive.
- Protections acknowledged while frozen leave the position waiting and end in an emergency exit:
  `WaitingKeptIff`, `FrozenAcksEndInEmergency`. Nothing in the engine calls `freeze` or `unfreeze`, so these are
  runs of the manager's interface, not of the running engine.
- A replaced stop leaves the part below a step uncovered (`ReplacementCoversIff`), and an emergency exit can be
  below the exchange minimum or zero (`EmergencyFitsIff`).
- After a protection triggers nothing more is sent, so what its fills leave stays open without a stop:
  `StrandedIff`; with the simulator exactly when the book is thinner than the position: `ThinBookStrandsIff`.
- The stop can be placed beyond the mark in some lives unless the lock is off, or its offset is below its
  trigger and the trail gap is positive: `RatchetSafeIff`.
- The window fails for a short horizon above W+N_long+1: `WindowSufficesIff`, `TooShortNeverS4`. The
  comment on the class speaks of W+N_long+2 bars; the code keeps 2W+N_long+2, and the former is blind to S4.
- The diff that causes a resync is itself discarded, so the next snapshot recovers the book exactly when
  the diffs after it reach it: `RecoveryIff`.
- Bars of trades whose minutes go back are refused by aggregation, exactly when the step back is before the
  open minute: `AggregateAcceptsIff`.
- An aggregated bar ends a millisecond later than the same bar built directly: `WholeBarsCommuteIff`.
- A participation limit refuses every entry, because no depth is measured, and so does a warm-up longer
  than the window; cooldowns never act, because no exit is recorded: `MarketOpenIff`, `WarmupOpensIff`.
- The gross cap is not kept by any configuration that accepts orders: the gate values an order at the price
  of the intent, and the market order fills at any price: `CapKeptIff`, `AnyAmountIsExceeded`. If fills cost at most
  `k` times what was accepted, `k` times the cap is kept with one position at a time; with several the cap counts
  open positions only, and orders accepted side by side can fill to `k` times the cap for each position allowed:
  `CapHoldsIff`, `BoundIsReached`.
- What a partial fill of a simulated protective order leaves is never taken: `ProtectionTakes`.
- With a negative beta the beta cut can leave less than the largest allowed size, mostly nothing:
  `BetaCutLargestIff`. A negative cap is compared as its absolute value in the bounds.
- A fill after its reservation lapsed can break exclusion, ownership or capacity: `LateFillIff`, with a run in
  `LateFillHappens`.
- A recorded control event that was never stepped live can make replay announce staleness:
  `ForeignInertIff`, with a run in `ForeignBreaksReplay`; a clock that goes back is not reproduced: `ClockAgreesIff`.
- Fills without a trade id count twice: `TwiceIsOnceIff`. FILLED may become CANCELED, or the
  reverse by a late fill: `TerminalMayChangeIff`.
- A sweep of the registry does not commute with an acknowledgement of a silent order, nor with its
  partial fill: `SweepCommutesInRunsIff`, `PartialFillDoesNotCommute`.
- A high surrogate before a low one is joined by the JSON reader: `RoundTripIff`.

## How the model reads the source

- Decimals are exact reals and `//` truncates towards zero; integer division of times floors, as Python's does.
  Products of two reals are named `Times` so that equal products are recognised.
- Float arithmetic of the features is a parameter, so those results hold for any rounding.
- Python's None is `Option` where the source tests for it. ValueErrors are preconditions (rounding) or
  `Err` results (ids, aggregation, event lines).
- The hash in entry ids is any ten characters without a separator.
- Latencies, the luck of a touched limit order, simulator answers in the replay model and everything
  the gate reads from outside are arbitrary inputs.
- `SyncedIsTrue` takes snapshots of full depth, the recorder asks for limited ones; `LimitedDepth` states it price by
  price for those.
- Leverages are positive: the gate divides by them.
- The ids a mark visits are given in visiting order; the results hold for every order.
- Fields are grouped into small records by what changes them; unused parameters (`bid` and `ask` of
  `on_tick`) are omitted.
- `EntryProtocol.Passed` puts in what the engine passes to the gate as constants: no depth, no slippage, no beta
  exposure, no recorded exits, no strategy budget. The theorems of `Risk` cover all values. A spread limit
  below zero is met by a crossed quote only.

## Model

| member | source | states |
|---|---|---|
| Rounding.RoundDownIsGreatest | fbot/core/rounding.py:26-33 | Rounding a price down gives the greatest tick multiple not above it. |
| Rounding.RoundUpIsLeast | fbot/core/rounding.py:26-33 | Rounding a price up gives the least tick multiple not below it. |
| Rounding.FloorStepIsGreatest | fbot/core/rounding.py:19-23 | A non-negative quantity is cut to the greatest step multiple within it. |
| Rounding.TriggerAwayFromMarket | fbot/core/rounding.py:36-47 | For every side and role the trigger is on the grid, away from the market, less than a tick off, and no grid price away from the market is nearer. |
| Ids.RenderInjective | fbot/core/ids.py:36-53 | Different structured ids of separator-free position ids are different texts. |
| Ids.RenderPosition | fbot/core/ids.py:51-53 | `pos_id_of` recovers the position id from every rendered id. |
| Ids.IdsFitTheLimit | fbot/core/ids.py:30-53 | Entry ids exist exactly for legal tags and are at most 15 characters; algo and exit ids built on them never exceed 36 for all versions below 10^16 and 10^15. |
| Ids.EntryCidInjective | fbot/core/ids.py:36-40 | For one tag, entry ids coincide exactly when side and hash do. |
| PositionManager.PositionRecord.constructor | fbot/core/position.py:60-92 | A new position record. |
| PositionManager.Manager.OnEntryFill | fbot/core/position.py:140-153 | The in-place update and its two commands are those of the specification function whose life-long properties are proved below. |
| PositionManager.Manager.OnAlgoAck | fbot/core/position.py:155-159 | Same, for an acknowledged protection. |
| PositionManager.Manager.OnAlgoTriggered | fbot/core/position.py:161-167 | Same, for a triggered protection. |
| PositionManager.Manager.OnExitFill | fbot/core/position.py:169-181 | Same, for an exit fill. |
| PositionManager.Manager.OnExitTerminal | fbot/core/position.py:303-307 | Same, for an exit order that ended. |
| PositionManager.Manager.Freeze | fbot/core/position.py:183-185 | Same, for freezing. |
| PositionManager.Manager.Unfreeze | fbot/core/position.py:187-189 | Same, for thawing. |
| PositionManager.Manager.ExitLocked | fbot/core/position.py:292-301 | Answers whether an exit is in flight and forgets one past its time to live. |
| PositionManager.Manager.ExitOrder | fbot/core/position.py:285-290 | Numbers an exit order and takes the in-flight lock. |
| PositionManager.Manager.Close | fbot/core/position.py:309-317 | Same, for closing by a rule. |
| PositionManager.Manager.CancelActive | fbot/core/position.py:319-322 | Cancels the active protections in id order, for a position that holds no ids but its current two; every reachable position is one (`LedgerIsActive`). |
| PositionManager.Manager.TakePartial | fbot/core/position.py:230-236 | Same, for the partial exit (R4). |
| PositionManager.Manager.DesiredStop | fbot/core/position.py:239-248 | Same, for the stop the lock or the trail wants. |
| PositionManager.Manager.Ratchet | fbot/core/position.py:237-263 | Same, for the stop replacement (R3). |
| PositionManager.Manager.OnTick | fbot/core/position.py:192-264 | A tick with all rules in the source order computes the specification function `Position.OnTick`. |
| Position.StepKeepsEntry | fbot/core/position.py:140-322 | No later event changes what the entry fill fixed. |
| StopRatchet.StopNeverLoosens | fbot/core/position.py:216-263 | Over any run the stop stays on the tick grid and only moves towards profit, despite the rounding away from the market. |
| StopRatchet.ReplacementTightens | fbot/core/rounding.py:36-47 | Rounding away from the market cannot undo an improvement over a stop on the grid. |
| StopRatchet.EntryStopOnGrid | fbot/core/position.py:145-147 | The entry fill puts the first stop on the grid. |
| RatchetSafety.RatchetSafeIff | fbot/core/position.py:237-259 | Over all lives: no tick places a stop that its mark has already hit, exactly when the lock is off, or its offset is below its trigger and the trail gap is positive. |
| StopRatchet.TickPlacesSafely | fbot/core/position.py:200-264 | With such parameters, or without a lock, every stop placed by a tick is strictly on the protective side of its mark. |
| StopRatchet.ProfitLockFloor | fbot/core/position.py:111-121 | Once locked, in every later state the gross result at the stop exceeds cost at the lock plus the offset less 100 ticks per entry price, on both sides. |
| ProtectionLedger.LedgerIsActive | fbot/core/position.py:140-189 | Over a whole life in any interleaving, protections placed less those cancelled or triggered are exactly the active ones. |
| ProtectionLedger.StepLedger | fbot/core/position.py:251-263 | The same for one event from any state that holds only its own current ids. |
| ProtectionLedger.NeverUncovered | fbot/core/position.py:258-263 | Until a trigger arrives or the quantity is zero, a stop of the position is live at every prefix of the command stream. |
| StopCover.StopCoversSteps | fbot/core/position.py:249-263 | Over every life the current stop was placed at the stop price and would sell at least all whole steps of what is open; all of it when that is a whole number of steps. |
| StopCover.ReplacementCoversIff | fbot/core/position.py:255-263 | When a tick replaces the stop, the new one covers everything exactly if the open quantity is a whole number of steps. |
| StopCover.NeverUndercovered | fbot/core/position.py:249-263 | Until a trigger arrives, at every prefix of the command stream a live stop would sell at least all whole steps of what is open. |
| ProtectionLedger.TickAlgos | fbot/core/position.py:192-264 | A tick sends no protection command, or exactly a new stop followed by the cancellation of the old one. |
| ExitDiscipline.ExitDiscipline | fbot/core/position.py:161-181 | Per life at most one full exit and one partial; quantity is max(0, entry less fills); closed exactly at zero, and then without protections. |
| ExitDiscipline.RunEffect | fbot/core/position.py:200-317 | The same accounting between any two states of a run that satisfies the invariant. |
| ExitDiscipline.ClosedIsFinal | fbot/core/position.py:161-189 | A closed position stays closed and never sends a command again. |
| ExitDiscipline.TimeoutAlwaysExits | fbot/core/position.py:202-209 | A protecting position sends its emergency exit at a tick exactly when the deadline passed and the system is not halted; the in-flight lock never prevents it. |
| ExitDiscipline.EmergencyFitsIff | fbot/core/position.py:202-209 | The emergency exit, sent without the exchange filter, meets the minimum quantity exactly when some whole number of steps within the position does, and asks for nothing exactly when the position is below one step. |
| ExitDiscipline.ManagedExitsIff | fbot/core/position.py:210-229 | A tick sells a managed position exactly when degradation, the backup stop or the hold limit asks for it in full mode and the exchange takes the quantity; no order in flight prevents it. |
| ExitDiscipline.ExitOrdersFit | fbot/core/position.py:230-236 | Every exit order is a step multiple between zero and the open quantity when the partial fraction is between 0 and 1. |
| ExitDiscipline.IdsDistinct | fbot/core/position.py:285-290 | All ids sent in a life are distinct as texts, and the position id is recovered from each. |
| ExitOverlap.NeverOversellsIff | fbot/core/position.py:230-236 | The exit orders of a life never exceed the entered quantity exactly when the partial exit is off or its fraction is not positive, whatever the fraction else: the partial does not take the in-flight lock. |
| ExitOverlap.WaitingKeptIff | fbot/core/position.py:155-159 | Over the interface of the manager: a position waits only for unconfirmed protections, and the one event that breaks this is thawing one confirmed while frozen. |
| ExitOverlap.FrozenAcksEndInEmergency | fbot/core/position.py:183-208 | Over the same interface: protections acknowledged while frozen end in an emergency exit after the deadline, whatever the parameters. |
| Stranded.StrandedIff | fbot/core/position.py:161-181 | Over every life: after a trigger no command is ever sent again and no protection is left, and quantity stays open exactly when the fills of the life sum to less than was entered. |
| Stranded.ThinBookStrandsIff | fbot/execution/sim.py:148-172 | A protection of the position that fires into the simulated book strands a part of it for good exactly when the book holds less than the position, with or without a client id on the fill. |
| LocalOrderBook.LocalBook.constructor | fbot/orderbook.py:14-25 | An empty, unsynced book. |
| LocalOrderBook.LocalBook.Write | fbot/orderbook.py:73-80 | Writing changes in order equals the specification of absolute quantities. |
| LocalOrderBook.LocalBook.Process | fbot/orderbook.py:50-64 | One diff: the object takes the step of the protocol. |
| LocalOrderBook.LocalBook.Lose | fbot/orderbook.py:66-71 | A resync: the object takes the step of the protocol. |
| LocalOrderBook.LocalBook.ApplySnapshot | fbot/orderbook.py:28-41 | The snapshot loop over the buffer takes the step of the protocol, stopping at the first resync. |
| LocalOrderBook.LocalBook.Feed | fbot/orderbook.py:43-47 | Feeding a diff takes the step of the protocol. |
| OrderBookSync.DiffCatchesUp | fbot/orderbook.py:73-80 | A genuine diff applied to the true book anywhere between its predecessor and its end gives the true book at its end. |
| OrderBookSync.SyncedIsTrue | fbot/orderbook.py:28-80 | Under any loss, duplication, reordering and snapshot timing a synced book equals the exchange book at the id it claims, with an empty buffer. |
| OrderBookSync.FromTheStart | fbot/orderbook.py:14-80 | The same from a new book. |
| LimitedDepth.RightWhereSnapshotIs | fbot/orderbook.py:28-80 | With snapshots of any depth and any network behaviour: while synced, the book is right at every price at which the last snapshot was. |
| LimitedDepth.RightOnceTouched | fbot/orderbook.py:73-80 | And at every other price from the first applied diff that mentions it. |
| LimitedDepth.RightAfterSnapshotIff | fbot/orderbook.py:28-41 | Straight after a snapshot a price is right exactly when the snapshot shows it right. |
| OrderBookSync.LosslessBuffer | fbot/orderbook.py:28-64 | A lossless buffer gives dropped then applied diffs and no resync, unless the first diff reaching the snapshot starts after it; then exactly one resync. |
| OrderBookSync.CoveringSnapshotSyncs | fbot/orderbook.py:28-41 | A snapshot covered by a lossless buffer always syncs, to the end of the buffer. |
| OrderBookSync.SnapshotSyncsIff | fbot/orderbook.py:28-57 | Over a lossless buffer of any length a snapshot causes no resync exactly when the buffer reaches it. |
| OrderBookSync.RecoveryIff | fbot/orderbook.py:43-71 | The diff that breaks the chain is lost; after any number of later diffs the next snapshot recovers the book exactly when those diffs reach it: there are none, or all end before it, or one of them spans it. |
| OrderBookSync.RecoveryNeedsNewerSnapshot | fbot/orderbook.py:59-71 | In particular a snapshot older than the first of them fails, even one that covers the diff that broke the chain. |
| OrderBookSync.StepAccounted | fbot/orderbook.py:53-71 | Every handled diff is counted once as applied, dropped or a resync, and the reasons add up. |
| Market.SymbolMarket.OnAggTrade | fbot/core/market.py:39-62 | The bars returned over the life of the object are the closed bars of all its trades. |
| Timeframe.FoldGroup | fbot/research/timeframe.py:41-56 | Folds a full group with its loops of maxima, minima, sums and the mean of the known spreads, with the end of the bucket and the last minute's other fields; nothing for a group with a missing minute. |
| Timeframe.CheckAscending | fbot/research/timeframe.py:23-24 | Exactly the strictly ascending lists pass. |
| Timeframe.Collect | fbot/research/timeframe.py:29-35 | One turn of the aggregation loop. |
| Timeframe.AggregateBars | fbot/research/timeframe.py:19-38 | The aggregation loop with its error cases computes the specification, for bars with everything they carry. |
| Timeframe.CoresCommute | fbot/research/timeframe.py:19-56 | Leaving out end, spread and other fields before or after aggregating is the same. |
| Timeframe.EachFoldsItsBucket | fbot/research/timeframe.py:28-56 | Every aggregated bar folds consecutive minutes, as many as the timeframe has and all of its bucket; its end, spread and other fields follow from them. |
| Timeframe.SpreadIsWithin | fbot/research/timeframe.py:44-55 | The spread is known exactly when some minute's is, and lies between the minutes' spreads. |
| Timeframe.WholeBarsCommuteIff | fbot/research/timeframe.py:41-56 | With everything a bar carries, timeframes commute exactly for one minute or no complete bar: otherwise the aggregated end is a millisecond later than the builder's, and only that differs. |
| Bars.TimeframesCommute | fbot/research/timeframe.py:19-56 | For trades whose minutes do not go back, aggregating closed minute bars gives exactly the directly built longer bars whose every minute traded. |
| Bars.NothingLost | fbot/core/market.py:39-62 | In any order of arrival, closed bars plus the open one hold all volume, buy volume and trades. |
| Bars.AggregateAcceptsIff | fbot/research/timeframe.py:23-24 | Aggregation accepts the closed minute bars of a stream of trades exactly when no trade before the open minute steps back to an earlier minute, for every timeframe. |
| Bars.BackwardsIsRefused | fbot/research/timeframe.py:23-24 | One that is refused: a trade steps back a minute and a third minute follows. |
| StateEngine.ComputeRv | fbot/research/features.py:34-41 | The accumulation loop equals the specified realised volatility. |
| StateEngine.ComputeRvs | fbot/research/features.py:66-67 | One value per bar. |
| StateEngine.ComputeFeatures | fbot/research/features.py:61-80 | The loop gives the specified feature vector of every bar. |
| StateEngine.SymbolStateEngine.constructor | fbot/core/state_engine.py:36-45 | A new engine, of any configuration, agrees with the empty history. |
| StateEngine.SymbolStateEngine.AppendAndTrim | fbot/core/state_engine.py:54-56 | The kept bars are the last `_keep` bars of the whole history. |
| StateEngine.SymbolStateEngine.OnBar | fbot/core/state_engine.py:52-59 | Features and label are those of the kept window; when the short horizon fits the window, those of the full history. |
| StateEngine.SymbolStateEngine.OnBarCmds | fbot/core/state_engine.py:61-71 | The commands of a whole life are those of the windowed run; when the short horizon fits, exactly the label changes of the full history. |
| StateEngine.RunMatchesHistory | fbot/core/state_engine.py:47-71 | For every history of positive closes and a short horizon that fits the window, the windowed run equals the full-history run in features, labels, ages and commands. |
| StateEngine.TooShortNeverS4 | fbot/core/state_engine.py:47-50 | Keeping only W+N_long+2 bars with N_long+1 < W never reaches S4; neither does the full window when N_short > W+N_long+1. |
| Features.EvalShift | fbot/research/features.py:15-58 | No feature sees a bar older than its reach. |
| Features.WindowSuffices | fbot/research/features.py:61-80 | Any window longer than every reach gives the last feature vector of the full history. |
| Features.WindowSufficesIff | fbot/core/state_engine.py:47-57 | The kept window is enough for every history exactly when N_short is at most W+N_long+1. |
| Features.BlindToS4 | fbot/research/states.py:19-24 | A window no longer than the start of a percentile S4 needs is never labelled S4. |
| Features.BlindConfigurations | fbot/core/state_engine.py:47-50 | Which configurations are blind in that way. |
| RiskGate.AssessIntent | fbot/core/risk.py:91-196 | The whole gate, collecting every reason in order and cutting the size on the way, gives the specified verdict. |
| RiskGate.StaleChecks | fbot/core/risk.py:105-107 | K4: one reason per stale category, in order. |
| RiskGate.CutForBeta | fbot/core/risk.py:131-142 | K9 with its unknown case. |
| RiskGate.CutSize | fbot/core/risk.py:121-147 | K8 to K11 with every cut of the size. |
| RiskGate.CutForDepth | fbot/core/risk.py:157-169 | K13 and K14, with the second filter check. |
| Risk.RefusedIff | fbot/core/risk.py:188-196 | An entry is refused exactly when a gate is shut or its size, before or after the participation cut, fails the exchange filters; the cuts never refuse. |
| Risk.ApprovedIff | fbot/core/risk.py:91-196 | Approved unchanged exactly when every gate is open and the requested size fits every limit and the filters. |
| Risk.ExitRefusedIff | fbot/core/risk.py:148-155 | An exit is refused exactly when its size fails the exchange filters. |
| Risk.AcceptedMeetsAllLimits | fbot/core/risk.py:87-196 | After all cuts and roundings together every quantity not refused is a step multiple meeting both minimums, and if there is anything to send its value keeps the requested notional, gross, strategy, beta and participation limits, and the margin limit for a buffer of at least -1, for every sign of notional, beta and side. |
| Risk.AcceptedFindsGatesOpen | fbot/core/risk.py:98-116 | An accepted entry found room, a free symbol and no lease. |
| Risk.BetaCutBounds | fbot/core/risk.py:136-142 | For any signs the beta cut leaves the exposure within the cap or where it was. |
| Risk.BetaCutLargestIff | fbot/core/risk.py:136-142 | The beta cut leaves the largest allowed size exactly for positive beta, or an exposure at or beyond the cap on the far side, or a cap or notional that is not positive; with a negative beta and an exposure within the cap on the near side it leaves nothing. |
| Risk.QtyWithinNotional | fbot/core/risk.py:87-88 | The quantity is a step multiple worth no more than the notional, for either sign. |
| LeaseTables.LeaseTable.Acquire | fbot/core/lease.py:44-51 | Taking a lease. |
| LeaseTables.LeaseTable.Bind | fbot/core/lease.py:53-57 | Binding a lease to a position. |
| LeaseTables.LeaseTable.ReleasePosition | fbot/core/lease.py:62-67 | Drops exactly the leases bound to the position. |
| LeaseTables.LeaseTable.Sweep | fbot/core/lease.py:69-76 | Drops exactly the unbound leases past their time. |
| LeaseTables.LeaseTable.BusyFor | fbot/core/lease.py:81-88 | Why a symbol is busy for a strategy. |
| Leases.FreeIffAcquirable | fbot/core/lease.py:44-88 | A symbol reads as free to the gate exactly when acquiring it succeeds, whoever asks. |
| CoreStates.CoreState.SweepPending | fbot/core/engine.py:253-257 | Drops exactly the lapsed reservations. |
| CoreStates.CoreState.DropClosed | fbot/core/engine.py:267-275 | The index keeps exactly the open positions. |
| CoreStates.CoreState.ReleaseFinished | fbot/core/engine.py:276-282 | Gives back exactly the leases of finished positions. |
| CoreStates.CoreState.Tick | fbot/core/engine.py:101-104 | Sweeps and index of a clock tick take the step of the protocol. |
| CoreStates.CoreState.OnEntryFill | fbot/core/engine.py:176-192 | A fill takes the step of the protocol. |
| CoreStates.CoreState.EntryGone | fbot/core/engine.py:155-168 | A rejected, cancelled or unknown entry frees the reservation only. |
| CoreStates.CoreState.AddGross | fbot/core/engine.py:444-444 | Adds up the open positions one at a time, in any order. |
| CoreStates.CoreState.Ask | fbot/core/engine.py:437-457 | The gate sees the open positions, the sum of their values, the reservations and the lease of the symbol. |
| CoreStates.CoreState.Decide | fbot/core/engine.py:411-427 | Reserves and leases the symbol exactly when the gate accepts. |
| EntryProtocol.EntryProtocolIsSafe | fbot/core/engine.py:179-192 | In every run where a fill arrives once and while its symbol is reserved: one open position per symbol, open plus reserved within the limit, reservations hold an unbound lease with their deadline, open positions a lease bound to them, no conflict, and an exact index. |
| EntryProtocol.NextKeeps | fbot/core/engine.py:252-282 | Every step keeps the invariant behind it. |
| EntryProtocol.AcceptedAlwaysAcquires | fbot/core/engine.py:420-423 | An accepted intent always gets its lease, whichever strategy made it. |
| EntryProtocol.TickLeavesNoLeak | fbot/core/engine.py:101-104 | After a clock tick only running reservations, running leases, leases of open positions and open index entries remain. |
| EntryProtocol.IdleSymbolIsFree | fbot/core/lease.py:62-88 | A symbol with no open position and no running lease becomes free for every strategy. |
| EntryProtocol.LateFillIff | fbot/core/engine.py:179-192 | A late fill keeps exclusion exactly when the symbol has no open position, ownership exactly when it also still has a lease, and the limit exactly when the symbol is still reserved or there is room. |
| LateFill.LateFillHappens | fbot/core/engine.py:179-192 | Such a fill comes about in a run: reserve, lapse at a tick, enter again, fill, and then the first fill arrives; for every time to live, strategy and configuration that lets an entry through at all. |
| GrossCap.AcceptKeepsCapIff | fbot/core/risk.py:125-130 | Accepting an order keeps what is open and what is reserved within the gross cap exactly when the most it may cost fits beside both; the gate checks its value at the intent price, and beside the first only. |
| GrossCap.ExposureBound | fbot/core/engine.py:411-444 | In every run whose fills cost at most k times what was accepted (any k of at least 1), what is open and what is reserved together are at most k times the gross cap for each position allowed. |
| GrossCap.BoundIsReached | fbot/core/engine.py:411-457 | And for every such k that bound is reached in open positions alone, with the inputs the engine passes: as many orders, each worth the whole cap, are accepted before the first fill. |
| GrossCap.CapHoldsIff | fbot/core/engine.py:437-457 | If fills cost at most k times what was accepted (k of 1: no more than accepted), the open positions of every run keep k times the gross cap exactly when one position at a time is allowed, the cap leaves no room, or the configuration lets nothing through: a participation limit (no depth is passed), a negative skew or slippage limit, or a warm-up beyond the window. |
| GrossCap.SerialKeepsCap | fbot/core/engine.py:411-427 | If fills cost at most k times what was accepted, orders taken one at a time, each accepted with nothing reserved, never bring what is open and reserved over k times the cap. |
| GrossCap.CapKeptIff | fbot/core/engine.py:179-192 | With no assumption on the price of fills: the open positions of every run keep the gross cap exactly when no position is allowed, the cap leaves no room, or the configuration lets nothing through, that is when no order is ever accepted. |
| GrossCap.AnyAmountIsExceeded | fbot/core/engine.py:179-192 | Otherwise a single accepted order can bring the open positions above any amount: the fill price is taken as it comes. |
| OpenGates.MarketOpenIff | fbot/core/engine.py:448-457 | Of the market gates the engine can shut only five: a participation limit or a negative slippage limit always does, else spread, order budget, ban and backoff; a cooldown never does. |
| OpenGates.RefusesAll | fbot/core/engine.py:445-457 | Those configurations refuse every entry in every state. |
| Warmup.HeldAreCounted | fbot/core/state_engine.py:47-56 | After any history the gate is told min(bars ever closed, window length). |
| Warmup.WarmupOpensIff | fbot/core/engine.py:445-445 | Over all histories the warm-up gate can open exactly when it asks for at most 2W+N_long+2 bars. |
| Warmup.OpenAfterIff | fbot/core/risk.py:103-104 | After a given history the state gates are open exactly when the others are and neither the history nor the window is shorter than the warm-up. |
| Warmup.TooLongRefuses | fbot/core/risk.py:103-104 | With a longer warm-up the gate refuses every entry after every history. |
| PaperTraders.Engine.Staleness | fbot/core/engine.py:459-474 | The category loop computes the specified flags and announcements, with the throttle. |
| PaperTraders.Engine.RegisterOrders | fbot/core/engine.py:132-146 | Every order among the commands is handed to the registry once, in order. |
| PaperTraders.Engine.Step | fbot/core/engine.py:88-130 | The step with its early returns computes the specification. |
| PaperTraders.PaperTrader.Keep | fbot/paper/trader.py:75-96 | Keeps commands and records the ones it echoes, in order. |
| PaperTraders.PaperTrader.Step | fbot/paper/trader.py:73-84 | Extends the trace by the event and its echoes. |
| PaperTraders.PaperTrader.Drain | fbot/paper/trader.py:158-190 | Steps the answers of the simulator in order. |
| PaperTraders.PaperTrader.OnEvent | fbot/paper/trader.py:60-64 | A turn of the feed extends the live trace. |
| PaperTraders.PaperTrader.OnTick | fbot/paper/trader.py:66-70 | A clock turn extends the live trace. |
| Replay.ReplayReproducesLive | fbot/replay/harness.py:47-83 | For every engine logic, feed and simulator answers with times that never go back, replaying the record gives on each recorded event exactly the live commands. |
| Replay.StalenessIdempotent | fbot/core/engine.py:459-474 | A second check at the same time changes and announces nothing. |
| Replay.InertIff | fbot/core/engine.py:462-464 | A further check changes nothing exactly when it is throttled or the flags are current as of this very time. |
| Replay.EchoInert | fbot/paper/trader.py:77-84 | The commands the trader recorded are inert when replayed. |
| Replay.ForeignInertIff | fbot/recorder/main.py:76-91 | A control event recorded but never stepped live changes nothing but the counters and announces nothing in replay exactly under that condition. |
| Replay.ForeignMatters | fbot/recorder/main.py:76-91 | A run in which it announces staleness: for every logic and limits, any watched category is heard once and the event comes when it has gone stale. |
| Replay.ForeignBreaksReplay | fbot/replay/harness.py:47-83 | There the commands of the replayed record differ from those that were given live. |
| Replay.ClockAgreesIff | fbot/clock.py:12-24 | The replay clock shows every event its own time exactly when recorded times never go back. |
| BookWalk.WalkBook | fbot/execution/sim.py:51-63 | The loop computes the greedy fill and its average price. |
| BookWalk.FillsWhatItCan | fbot/execution/sim.py:51-63 | The walk fills min(quantity, depth) and never more than a level offers. |
| BookWalk.WalkIsOptimal | fbot/execution/sim.py:51-63 | No allocation of the filled quantity costs a buyer less or brings a seller more. |
| BookWalk.AverageBetween | fbot/execution/sim.py:51-63 | The average price lies between the best and the last level reached. |
| BookWalk.Sorted | fbot/execution/sim.py:79-82 | The levels sorted best first, the same levels. |
| SimExecutors.SimExecutor.OnDepth | fbot/execution/sim.py:79-82 | Stores both sides sorted. |
| SimExecutors.SimExecutor.OnMark | fbot/execution/sim.py:88-99 | Triggers the active protective orders of the symbol that the mark hits, in the given order. |
| SimExecutors.SimExecutor.Submit | fbot/execution/sim.py:110-117 | Queues a command with its latency. |
| SimExecutors.SimExecutor.ProcessCtrl | fbot/execution/sim.py:131-146 | Obeys the control requests that are due, in order, keeping the others. |
| SimExecutors.SimExecutor.FireShot | fbot/execution/sim.py:153-171 | One triggered order that is due: dropped without a position, kept without a book, else filled. |
| SimExecutors.SimExecutor.ProcessTriggered | fbot/execution/sim.py:148-172 | The loop visits every triggered order in order. |
| SimExecutors.SimExecutor.LimitFill | fbot/execution/sim.py:207-223 | A limit order fills whole at its limit once the market crosses it, or touches it with luck. |
| SimExecutors.SimExecutor.Attempt | fbot/execution/sim.py:181-203 | One due order: its fill, then its time-out. |
| SimExecutors.SimExecutor.ProcessOrders | fbot/execution/sim.py:174-205 | The loop visits every waiting order in order. |
| SimExecutors.SimExecutor.Poll | fbot/execution/sim.py:123-128 | Control requests first, then triggered protective orders, then orders. |
| Simulator.NothingIsLost | fbot/execution/sim.py:110-205 | In every run, per order id, fills plus expired plus waiting equal what was submitted if nothing was cancelled, and never exceed it. |
| Simulator.NothingFillsEarly | fbot/execution/sim.py:110-121 | In every run every fill belongs to an order submitted at least the latency before. |
| Simulator.FillsAreFair | fbot/execution/sim.py:174-223 | A limit order fills at its limit and only once reached; a market order gets min(wanted, depth) between best and last level. |
| Simulator.PollLeavesNoOverdue | fbot/execution/sim.py:197-203 | After a poll no due order is left untried, empty or past its time-out. |
| ProtectiveFills.MarkTriggersIff | fbot/execution/sim.py:88-103 | A mark triggers exactly the visited orders of its symbol that it hits, and leaves the others as they are. |
| ProtectiveFills.OneFillPerTrigger | fbot/execution/sim.py:88-172 | In every run, per id: fills plus those still to come never exceed triggers, and triggers plus the active order never exceed acknowledgements. |
| ProtectiveFills.NoEarlyProtection | fbot/execution/sim.py:88-172 | In every run a protective order fills only once the latency since its trigger is over. |
| ProtectiveFills.ProtectionTakes | fbot/execution/sim.py:153-171 | A triggered order waits exactly until it is due and while its position has nothing to trade against; then it takes min(position, depth) between best and last level, and what a partial fill leaves is dropped. |
| RateLimiters.SlidingWindow.Trim | fbot/core/rate_limit.py:56-58 | Pops exactly the events outside the span at the front. |
| RateLimiters.SlidingWindow.Used | fbot/core/rate_limit.py:60-63 | Sums the remaining events and never goes below that for a header. |
| RateLimiters.SlidingWindow.Add | fbot/core/rate_limit.py:65-69 | Counts an event. |
| RateLimiters.SlidingWindow.Remaining | fbot/core/rate_limit.py:71-72 | The room left, never negative. |
| RateLimiters.RateLimiter.AllowOrder | fbot/core/rate_limit.py:90-94 | The gate, with the windows it trims. |
| RateLimiters.RateLimiter.OnOrder | fbot/core/rate_limit.py:104-106 | Counts an order in both windows. |
| RateLimiters.RateLimiter.Place | fbot/gateway/testnet.py:108-119 | An order is counted exactly when the gate lets it pass. |
| RateLimiters.RateLimiter.Sync | fbot/core/rate_limit.py:108-128 | Headers overwrite the reported usage. |
| RateLimiters.RateLimiter.OnResponse | fbot/core/rate_limit.py:130-140 | 418 bans, 429 backs off. |
| RateLimit.IntervalsAreBounded | fbot/core/rate_limit.py:50-106 | Whatever headers arrive, every closed 10 s and 60 s interval holds at most the limit of orders, and of entry orders at most that less the reserve. |
| RateLimit.EstimateIsExact | fbot/core/rate_limit.py:56-63 | The trimmed window counts exactly the orders of the last span. |
| RateLimit.RefusesIff | fbot/core/rate_limit.py:90-94 | Without headers the gate refuses exactly when banned, backing off, or a span is full up to the reserve. |
| RateLimit.BannedSendsNothing | fbot/core/rate_limit.py:133-136 | Nothing is sent after a ban. |
| Telemetry.Histogram.Bucket | fbot/core/telemetry.py:34-40 | Binary search finds the one bucket of the value. |
| Telemetry.Histogram.Observe | fbot/core/telemetry.py:29-41 | Keeps every counter equal to the number of observations in its bucket, with count, total and maximum. |
| Telemetry.Histogram.QuantileNs | fbot/core/telemetry.py:43-53 | Answers with the first bucket reaching the share, its edge or the maximum; all values of q. |
| Telemetry.CountsAddUp | fbot/core/telemetry.py:29-41 | Bucket counts sum to the count. |
| Telemetry.AnswerIsClose | fbot/core/telemetry.py:43-53 | The answer is at least the true quantile and less than twice it above the first bucket and within the last edge. |
| Telemetry.QuantileExists | fbot/core/telemetry.py:43-53 | Every share in (0, 1] has a true quantile among the observations. |
| Telemetry.BucketIsUnique | fbot/core/telemetry.py:17-17 | The doubling edges put every value in one bucket. |
| OrderRegistries.OrderRegistry.Register | fbot/core/oms.py:57-69 | A known id keeps its entry. |
| OrderRegistries.OrderRegistry.OnEvent | fbot/core/oms.py:97-114 | A message raises the state by rank and clears the unknown mark of a terminal order. |
| OrderRegistries.OrderRegistry.MarkUnknown | fbot/core/oms.py:116-123 | Marks any order that is not terminal. |
| OrderRegistries.OrderRegistry.Sweep | fbot/core/oms.py:126-135 | Marks exactly the silent orders. |
| OrderRegistries.OrderRegistry.HasOpenIntent | fbot/core/oms.py:88-94 | Whether an intent still has an order that is not terminal. |
| Oms.RankIsHighest | fbot/core/oms.py:97-123 | The rank of an order is the maximum over its messages; it is listed as unknown exactly when marked and not terminal. |
| Oms.OrderDoesNotMatter | fbot/core/oms.py:97-123 | Any two sequences with the same messages, in any order and multiplicity, give the same rank and the same unknown listing. |
| Oms.RankNeverFalls | fbot/core/oms.py:97-135 | Terminal is absorbing and no order falls in rank. |
| Oms.ReachableIsRight | fbot/core/oms.py:50-135 | In every reachable registry {state UNKNOWN} is within `unknown`, which is within the orders not terminal; intents point at their own orders. |
| Oms.LastOfEqualRankWins | fbot/core/oms.py:24-30 | Among FILLED and DONE the last message decides the exact state. |
| Oms.SweepCommutesIff | fbot/core/oms.py:97-135 | A sweep and a message give the same registry in either order exactly when the order is not silent, or the message does not acknowledge it and does not report a partial fill of an order not yet listed as unknown; for every message and reachable registry. |
| Oms.SweepCommutesInRunsIff | fbot/core/oms.py:97-135 | After any run: exactly when the order is not silent, or the message asks neither for an acknowledgement nor for a partial fill. |
| Oms.SweepRankIff | fbot/core/oms.py:97-135 | For the rank of the order alone only acknowledgements matter. |
| Oms.PartialFillDoesNotCommute | fbot/core/oms.py:116-135 | A run in which a partial fill leaves a silent order listed as unknown or not, depending on which came first. |
| Oms.SweepLeavesNoneSilent | fbot/core/oms.py:126-135 | After a sweep nothing is silent past its time and all that was is listed. |
| OrderBooks.OrderBook.Receive | fbot/core/order_state.py:63-102 | One event with its early returns updates exactly its own order. |
| OrderTracker.RepetitionsChangeNothing | fbot/core/order_state.py:75-92 | Removing every repeated trade from any stream leaves all fields of the order unchanged. |
| OrderTracker.TwiceIsOnceIff | fbot/core/order_state.py:76-92 | Sending a fill twice leaves the totals alone exactly when it names its trade, its cumulative quantity is below what is filled after the first sending, or it carries no amounts. |
| OrderTracker.FilledIsLastCum | fbot/core/order_state.py:85-88 | Over an in-order stream with any repetitions the filled quantity is the last cumulative one. |
| OrderTracker.AverageWithin | fbot/core/order_state.py:47-49 | The average price lies between the lowest and the highest fill price, for any stream. |
| OrderTracker.StatusNeverFalls | fbot/core/order_state.py:93-94 | The rank of the status never falls; terminal is never left. |
| OrderTracker.TerminalMayChangeIff | fbot/core/order_state.py:74-100 | A terminal status changes exactly on an event with a different terminal status whose fill, if it has one, is neither repeated nor stale. |
| OrderTracker.OrdersAreIndependent | fbot/core/order_state.py:63-71 | Every order is what its own events make it. |
| EventLine.RoundTripIff | fbot/events.py:22-47 | decode(encode(ev)) == ev exactly when neither text holds a high surrogate directly before a low one; raw bytes are arbitrary. |
| EventLine.DecodeEncoded | fbot/events.py:22-47 | Decoding an encoded event always gives its numbers and raw bytes, and its texts with such pairs joined. |
| EventLine.HeadIsUnmarked | fbot/events.py:22-27 | No marker starts inside the header, whatever the texts. |
| EventLine.FindsAt | fbot/events.py:32-33 | So the first marker is the real boundary. |
| JsonText.EscapedReads | fbot/events.py:26-26 | Escaped text reads back unit by unit up to its closing quote. |
| JsonText.SurvivesIff | fbot/events.py:26-37 | A text survives writing and reading exactly when it holds no such pair. |
| JsonText.IntReads | fbot/events.py:22-37 | Written integers read back. |

## Left out

- Restoring protection versions after a restart: the entry fill overwrites them.
- Order commands of the tick path are not registered by the source; nothing is claimed about them.
- Partial entry fills: the intent's data is used up by the first fill, so an entry order fills once in the model.
- Reactors in active mode, the live execution adapter and the apply mode of reconciliation are not implemented in the source.
- REST, WebSocket, signing, storage, tasks, configuration, console and measurement scripts: input and output only.
- Decimal's 28-digit context rounding: exact reals are used.
- Engine logic inside `Replay`: routing, execution, tick and registry are parameters; their own properties are in the other modules.
- State fed from outside the event stream (kill switch file, account view): replay does not see it in the source either.
- The cost-drift alarm, which the trader records at the time of an earlier fill: it is a foreign event in the sense of `ForeignInertIff`.
- Positions inside `CoreState` are held by value; their in-place update is modelled by `PositionManager`.
- Returned lists of dropped leases and swept orders are sets; the order of their names is not modelled.
- The strategy plugins, decision rules and evidence texts: an intent is an arbitrary input.
- The weight window of the rate limiter and reading limits from exchange information: the order gate does not use them.
- The statistics, order id, symbol and flags of the order tracker: nothing in it reads them.
- PositionManager.Manager.CancelActive: an active id that is neither the current stop nor the current target would be cancelled by the source and is dropped here; no life ever holds one.
- The symbol of bars: a list of bars is taken to be of one symbol.
- Position and mark views in the report tables, and the named set of histograms: plain lookups.
- EventLine.RoundTripIff: the header reader accepts the writer's fixed layout only; other layouts that a general JSON parser accepts are not modelled.
- Telemetry.AnswerIsClose: the share times the count is exact; the float product of the source is not modelled.
- OrderTracker.FilledIsLastCum: genuinely reordered fills are dropped by design and not recovered.
- Replay.ReplayReproducesLive: times are taken not to go back and recorded control events not to come from outside the trader unstepped; the two lemmas above say exactly what happens otherwise.
- EntryProtocol.EntryProtocolIsSafe: fills outside their reservation are excluded; `LateFillIff` covers them.
