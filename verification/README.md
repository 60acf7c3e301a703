# Verification of the lead-lag trading bot

A Dafny model of the bot's decision-making core, with machine-checked proofs.
`dafny verify dfyconfig.toml` checks everything.

The bot watches Binance prices, expects Bybit to follow, and trades Bybit while
it lags. Four parts of it are modelled.

1. **The executor** (`Executor.dfy`, with `Risk`, `SafeMode`, `Ledger`,
   `Position`, `FollowThrough`, `Entry`, `Metrics`). The `select!` loop is a step
   relation over commands, heartbeats, Binance ticks, timer expiries, Bybit mids
   and funding rates, on the simulated path from no positions. What whole runs
   guarantee is in `Conservation` (money), `Halts` (halts, lockout, flags),
   `Lockout` (drawdown), `Entries` (deduplication, trend), `TakeProfits`, `Brackets`
   (exposure, stops) and `FollowThroughRuns`. `Openings` and `Closings` say exactly
   when a tick or timer opens or closes a position and what is booked; `Feeds` reads
   the executor's knowledge off the events.
   `ExecutorLoop` is the same loop as an object that updates its fields in place,
   each branch proved equal to its step, so that the run theorems hold of it.
   `Interleaving` takes the main loop and the two background tasks apart into
   single lock, write, publish and load operations and shows that every
   interleaving behaves as a serial run of the executor model.
2. **The order-book walk** (`OrderBook.dfy`): optimality by weak duality at the
   marginal price, monotone slippage, nearest snapshot.
3. **Streaming statistics** (`Metrics.dfy`): Welford against two passes, the ring
   with its timestamp search against a list; `Smoothing.dfy`: averages and ATR in
   closed form.
4. **Logs and profiles**: `PacketLog.dfy` (framing), `Replay.dfy` (the latency
   gate on such a log), `EdgeProfile.dfy` (the analyzer's profile, startup
   validation, and what the executor does with the hours).

Conventions. `f32` and `f64` are `real`; unsigned counters are unbounded. Clock
readings are parts of the events; the square root behind `sigma` is the tick
event's `root`, so results hold for whatever value it takes. `positions`, a hash
map keyed by symbol and sequence number, is a sequence in iteration order: an
insertion only happens when it is empty. Order sides are an enumeration and the
configuration tables are maps from symbol to value; the deposit fraction of an
entry is one map (per-symbol allocation, or the risk fraction in live mode).

What the code does where its names or documentation suggest otherwise:

- `net_pnl` never subtracts entry fees, so the drawdown guard sees too much
  money by exactly the entry fees (`Conservation.FlatNetPnlOmitsEntryFees`).
- The drawdown guard sees losses only at heartbeats and missed heartbeats
  (`Halts.LossesWaitForRefresh`).
- A flatten request outlives a resume and closes what is opened after it
  (`Halts.FlattenClosesLaterEntries`).
- The adverse-move kill can never fire on the executor's own packets under a
  non-negative limit (`Entry.PipelineDecision`).
- After a failed stop order the published word can admit entries while the warm
  state is halted (`Interleaving.FailedStopGap`).
- The startup fee check stops sufficing between 1.5 and 2 percent taker fee
  (`Positions.StartupCheckSufficesExactly`, `Positions.TwoPercentDoesNot`).
- The replay gate counts every short as a loss (`Replay.LoggedShortsLose`);
  it is antitone in latency on all logs although single estimates are not.
- The log writer accepts an empty encoding that the reader refuses
  (`PacketLog.RoundTripExactly`).
- The analyzer can write status pass for a profile that startup refuses, and a
  symbol it rejects trades in all hours (`EdgeProfile.PassYetRefusedExactly`,
  `EdgeProfile.RejectedSymbolsTradeAllHours`).

## Model

| member | source | states |
|---|---|---|
| Conservation.CashIsConserved | crates/executor-bin/src/main.rs:424-885 | In every state a run from startup reaches: realized profit plus all exit fees equals the signed cash of all fills plus the signed entry cost of the open positions; the fee total is the sum of the fill fees; every fill is an entry or a closed trade; entries equal closed trades plus open positions; at most one position is open |
| Conservation.FlatNetPnlOmitsEntryFees | crates/executor-core/src/paper_ledger.rs:43-102 | After any run that leaves nothing open, the net PnL shown to the drawdown guard exceeds the cash really left after all fees by exactly the entry fees paid |
| Conservation.RunKeepsSound | crates/executor-bin/src/main.rs:486-870 | The ledger invariant (known symbols, consistent books, tied-up cash equals open cost, at most one position) survives every event of every kind |
| Conservation.ExitsKeepBalance | crates/executor-bin/src/main.rs:577-625 | Every prefix of the exit loop: a position is still open at its cost or has been closed and freed exactly that cost, and the trade counts follow |
| Halts.RunKeepsCoherent | crates/executor-bin/src/main.rs:433-485 | After any run of whole events the published word is the one the warm state stands for, warm halt is operator halt or safe mode, and the word admits entries exactly when no halt, drawdown, funding or depth guard stands |
| Halts.InitIsCoherent | crates/executor-bin/src/main.rs:416-422 | Startup satisfies the flag invariant the run lemmas start from |
| Halts.HaltHolds | crates/executor-bin/src/main.rs:627-635 | While the operator halt is set and no trusted resume arrives, no event sequence opens a position or consumes a sequence number, whatever safe mode and heartbeats do |
| Halts.HaltCommandHolds | crates/executor-bin/src/main.rs:433-458 | The same from the command: after a trusted halt or flatten, until a trusted resume, no entry is made |
| Halts.UntrustedCommandsAreInvisible | crates/executor-bin/src/main.rs:426-431 | A run and the same run without its untrusted commands end in the same state |
| Halts.LockoutIsAbsorbing | crates/executor-bin/src/main.rs:635-640 | Once flat with a refreshed day loss at the limit, no later events, resumes and recovering markets included, open a position or change the ledger |
| Halts.HeartbeatLocksExactly | crates/executor-bin/src/main.rs:471-485 | A heartbeat on a flat executor begins that lockout if and only if the realized loss is at least the limit's share of the deposit (without a deposit, when the limit is not positive) |
| Halts.LossesWaitForRefresh | crates/executor-bin/src/main.rs:473-484 | Two executors that differ only in their ledgers behave alike over any events without a refresh: a loss past the limit stops entries only at the next heartbeat or missed heartbeat |
| Halts.FlattenClosesLaterEntries | crates/executor-bin/src/main.rs:450-458 | A flatten request outlives resumes and entries: whatever comes before the next timer, that timer leaves nothing open |
| Halts.FlattenWaitsForAPosition | crates/executor-bin/src/main.rs:828-834 | Timers that find no position leave the flatten request set |
| Halts.TrustedExactly | crates/executor-bin/src/main.rs:427-431 | A source is obeyed exactly when it spells panel, telegram or cli in any letter case |
| Closings.TickClosesExactly | crates/executor-bin/src/main.rs:577-625 | The one open position under the exit loop: closed exactly when the first of convergence, time, thesis, stop or target stands in the packet's own numbers at the last Bybit mid, with that reason, side, size, price, fee and gain booked; otherwise it stays and the ledger with it |
| Closings.SurvivorsAreInside | crates/executor-bin/src/main.rs:577-625 | However many are open: a position that survives a tick has neither stop nor target hit at the last Bybit mid of its symbol, or its entry price where there is none |
| Closings.ExitPriceIsLastSeen | crates/executor-bin/src/main.rs:580-584 | Packet and lag map agree: the exit price is the symbol's last Bybit mid, else the entry price |
| Closings.TimerDrainsExactly | crates/executor-bin/src/main.rs:806-870 | A timer leaves nothing open and the request served exactly when a flatten was asked for or the misses, this late timer included, reach the emergency threshold; otherwise positions, ledger and request stay |
| Closings.DrainBooksAtLastSeen | crates/executor-bin/src/main.rs:835-867 | A drained position is booked on the other side, whole, at the last Bybit mid or the entry price |
| Closings.FlattenCommandCloses | crates/executor-bin/src/main.rs:450-458 | From the command: after a trusted flatten, whatever comes before the next timer, that timer leaves nothing open |
| Closings.OnlyFlattenOrEmergencyDrains | crates/executor-bin/src/main.rs:828-834 | In a run from startup without a trusted flatten, whatever halts and resumes it holds, a timer closes positions exactly at the emergency threshold and otherwise touches neither them nor the ledger |
| Lockout.DrawdownLocksExactly | crates/executor-bin/src/main.rs:473-485 | From startup, on a flat executor, a heartbeat or counted miss takes the drawdown bit away for good exactly when sales less purchases less exit fees are a loss of at least the configured share of the deposit (without a deposit, when the limit is not positive), and then no later events open a position or change the ledger |
| Feeds.WordExactly | crates/executor-core/src/warm_risk.rs:17-32 | After any run the published word admits entries exactly when no halt stands, the misses are below every threshold, the refreshed loss and the funding rate are within the configured limits, and no known book is thinner than 5,000 dollars |
| Feeds.LatestFunding | crates/executor-bin/src/main.rs:369-373 | The funding rate of the guard is the last one polled |
| Feeds.LatestHaltCommand | crates/executor-bin/src/main.rs:433-458 | The operator halt is what the last trusted halt, flatten or resume said |
| Feeds.LatestMid | crates/executor-bin/src/main.rs:332-335 | A tracked symbol's Bybit mid and time are those of the last mid streamed for it |
| Feeds.LatestDepth | crates/executor-bin/src/main.rs:336-346 | A symbol's known depth is the last positive one streamed for it |
| Feeds.LatestHeartbeat | crates/executor-bin/src/main.rs:471-475 | After a heartbeat the miss count is the number of timers later than the timeout since then |
| Feeds.SilentStart | crates/executor-bin/src/main.rs:416-418 | Before the first heartbeat the misses are the timers later than the timeout since startup |
| Feeds.FollowedSymbols | crates/executor-bin/src/main.rs:192-212 | Exactly the symbols known on Bybit are followed, under the configured staleness limit, and each counts as stale until its first mid |
| Feeds.RunKeepsInformed | crates/executor-bin/src/main.rs:806-818 | Safe mode follows its count and thresholds, the warm depth is the least known one (50,000 dollars while none is), and the limits stay as configured, over every run |
| Feeds.ReferenceIsAgedTick | crates/executor-bin/src/main.rs:490-498 | From startup a tracked symbol's reference price is the newest of its last 2048 ticks at least 100 ms older than its newest, else the oldest of them |
| Openings.OpensExactly | crates/executor-bin/src/main.rs:627-645 | A tick opens a position exactly when no halt or guard stands, the exit loop leaves nothing open, the tick is in time, known and new, the symbol's adverse limit is not negative, and the market signals a side in prices |
| Openings.OpenedExactly | crates/executor-bin/src/main.rs:647-792 | What it opens: one position on the signalled side at the tick's price, sized by deposit, fraction and leverage, with stop and target around that price, its entry booked, its follow-through item queued and its sequence number used up |
| Openings.PacketExactly | crates/executor-bin/src/main.rs:513-570 | The packet of a tick is valid, and points to a side, exactly as hours, follow-through record, freshness and prices signal it |
| Halts.TickLeavesHaltsAlone | crates/executor-bin/src/main.rs:486-805 | A tick changes no halt, flag, safe-mode or heartbeat field |
| Entries.EntriesNeverRepeat | crates/executor-core/src/risk.rs:111-146 | Over any run each symbol's opened entries carry strictly increasing sequence numbers, all above the slot the run started from |
| Entries.RunCountsEntries | crates/executor-bin/src/main.rs:755-793 | The ledger's entry count grows by exactly the number of positions the run opened |
| Entries.RunsFollowTheTrend | crates/observer-core/src/entry.rs:75-97 | From startup, while a symbol's prices never fall it is never shorted, and while they never rise it is never bought, over whole runs with other markets and operators interleaved |
| Entries.EntriesFollowTheTrend | crates/executor-bin/src/main.rs:490-571 | The same from any state whose metrics of that symbol replay a known history |
| Entries.OpenedFollowsHistory | crates/executor-bin/src/main.rs:551-570 | One tick: what it opens is the tick's symbol, long after a history that never fell, short after one that never rose |
| TakeProfits.TakeProfitBeatsFees | crates/shared/src/validation.rs:86-90 | After any run on positive prices under a configuration accepted at startup with taker fee at most 1.5 percent, a tick that closes the position for TakeProfit books more than the entry and exit fees together |
| TakeProfits.RunKeepsTargets | crates/executor-bin/src/main.rs:672-682 | Every position a run holds keeps a positive entry price and the target its entry price and side determine |
| Brackets.ExposureIsOneBudget | crates/executor-bin/src/main.rs:664-665 | After any run on positive prices the notional at risk is nothing or exactly one symbol's budget (deposit times fraction times leverage), scaled down only below a price of one |
| Brackets.StopLossCosts | crates/executor-core/src/position.rs:77-87 | After any run on positive prices, a tick that stops the position out lowers net PnL by at least the stop distance on the whole size plus the exit fee |
| Brackets.RunKeepsBrackets | crates/executor-bin/src/main.rs:672-678 | Every position a run holds keeps its stop at least the minimum distance on the losing side and the size its budget gave it |
| FollowThroughRuns.JudgedByDirection | crates/executor-bin/src/main.rs:535-538 | A recorded outcome is a win exactly when Bybit has since moved strictly in the direction of the entry |
| FollowThroughRuns.JudgedExactly | crates/executor-bin/src/main.rs:528-540 | A due entry is recorded exactly when its symbol is tracked and its own and the current Bybit mid are known, and discarded otherwise |
| FollowThroughRuns.WaitingExactly | crates/executor-bin/src/main.rs:524-541 | Exactly the entries under 300 ms old wait on, and exactly the others are decided |
| FollowThroughRuns.EachEntryDecidedOnce | crates/executor-bin/src/main.rs:521-542 | Over any run, as multisets: what was pending plus what was pushed is what is pending plus what was decided, so nothing is lost or judged twice |
| FollowThroughRuns.EntriesAreAccountedFor | crates/executor-bin/src/main.rs:763-768 | From startup: entries opened equal pending plus recorded plus discarded |
| FollowThroughRuns.NeverDecidedEarly | crates/executor-bin/src/main.rs:524-527 | No outcome is decided within 300 ms of its entry |
| FollowThroughRuns.WindowsHoldLatestOutcomes | crates/executor-bin/src/main.rs:528-539 | From startup each symbol's window is exactly its last 200 recorded outcomes, with the configured minimum rate |
| FollowThroughRuns.PushesAreOpens | crates/executor-bin/src/main.rs:760-768 | Exactly one follow-through item is pushed per opened position |
| FollowThroughRuns.SettlingSplits | crates/executor-bin/src/main.rs:524-541 | The retain loop splits every prefix of the pending list into those that wait and those decided, as multisets |
| Executor.OnlyTicksAndTimersTrade | crates/executor-bin/src/main.rs:426-485 | Commands, heartbeats, depth and funding updates change no position, ledger, slot, pending item, metric or tracker |
| ExecutorLoop.EventLoop.constructor | crates/executor-bin/src/main.rs:416-422 | The loop object starts in the model's initial state, flags published |
| ExecutorLoop.EventLoop.Command | crates/executor-bin/src/main.rs:426-470 | The command branch takes the state to the command step, for trusted and untrusted sources |
| ExecutorLoop.EventLoop.Heartbeat | crates/executor-bin/src/main.rs:471-485 | The heartbeat branch takes the state to the heartbeat step |
| ExecutorLoop.EventLoop.BybitMid | crates/executor-bin/src/main.rs:328-353 | The Bybit task updates mid, depth map and warm depth as its step says, unknown symbols ignored |
| ExecutorLoop.EventLoop.Funding | crates/executor-bin/src/main.rs:369-373 | The funding task stores and publishes the rate |
| ExecutorLoop.EventLoop.Timer | crates/executor-bin/src/main.rs:806-870 | The timer counts a late heartbeat as a miss, refreshes, and drains positions when flattening is due |
| ExecutorLoop.EventLoop.DrainPositions | crates/executor-bin/src/main.rs:834-868 | The drain loop closes every position at its Bybit mid or entry price and leaves none |
| ExecutorLoop.EventLoop.Observe | crates/executor-bin/src/main.rs:490-498 | The tick pushes its price and refreshes the 100 ms reference of its symbol |
| ExecutorLoop.EventLoop.Settle | crates/executor-bin/src/main.rs:521-542 | The retain loop leaves the waiting items and delivers the outcomes in order |
| ExecutorLoop.EventLoop.RunExits | crates/executor-bin/src/main.rs:576-625 | The exit loop closes and keeps exactly the positions the fold over all positions says, with their ledger records |
| ExecutorLoop.EventLoop.TryEnter | crates/executor-bin/src/main.rs:627-793 | The entry path consults the risk engine unless halted, sets the symbol's adverse limit, and opens at most one position |
| ExecutorLoop.EventLoop.Open | crates/executor-bin/src/main.rs:755-793 | Opening records the ledger entry, the follow-through item and the position |
| ExecutorLoop.EventLoop.Tick | crates/executor-bin/src/main.rs:486-805 | The whole tick branch equals the tick step |
| ExecutorLoop.EventLoop.Handle | crates/executor-bin/src/main.rs:425-884 | Every message takes the object to the step relation's next state |
| ExecutorLoop.EventLoop.Serve | crates/executor-bin/src/main.rs:424-885 | Any finite stretch of the loop is a run of the step relation, command sources compared case-insensitively |
| ExecutorLoop.LeastOf | crates/executor-bin/src/main.rs:341-346 | The fold over the depth map returns its least value |
| Interleaving.InterleavingsStayCoherent | crates/executor-bin/src/main.rs:327-377 | For every interleaving of main loop, Bybit task and funding task at the grain of lock, write and publish: whenever the lock is free, outside the failed-stop gap, the published word is the warm state's; at the main loop's head warm halt is operator halt or safe mode |
| Interleaving.InterleavingsAreSerializable | crates/executor-bin/src/main.rs:433-485 | When all threads are idle the shared state is that of the committed sections run one after another |
| Interleaving.TicksReadCommittedState | crates/executor-bin/src/main.rs:627-636 | A tick's reads under the lock and of the published word see only whole updates |
| Interleaving.WritesHoldTheLock | crates/executor-core/src/warm_risk.rs:34-36 | Only the holder of the warm lock ever changes the warm state or the published word |
| Interleaving.SomeThreadCanMove | crates/executor-bin/src/main.rs:332-351 | While any thread is busy some thread can move |
| Interleaving.FailedStopGap | crates/executor-bin/src/main.rs:744-750 | Between the two locks of a failed stop the published word agrees with the warm state if and only if entries were already halted |
| Interleaving.StepsAreSections | crates/executor-bin/src/main.rs:426-485 | Each event of the executor model acts on the shared state as its section run without interruption |
| Interleaving.RunsAreSectionRuns | crates/executor-bin/src/main.rs:424-885 | A run of the executor model acts on the shared state as its sections in order |
| Interleaving.InterleavingsMatchRuns | crates/executor-bin/src/main.rs:424-885 | An interleaving at rest leaves the shared state a run of the executor model through the same sections leaves |
| Ledger.PaperLedger.RecordEntry | crates/executor-core/src/paper_ledger.rs:34-59 | Adds fee, count and fill as the account function says |
| Ledger.PaperLedger.RecordExit | crates/executor-core/src/paper_ledger.rs:62-98 | Adds fee, realized PnL net of the exit fee, count and fill as the account function says |
| Ledger.PaperLedger.NetPnl | crates/executor-core/src/paper_ledger.rs:100-102 | Returns the realized PnL |
| Ledger.EnteredEffect | crates/executor-core/src/paper_ledger.rs:34-59 | An entry keeps the books consistent and ties up the signed notional |
| Ledger.ExitedEffect | crates/executor-core/src/paper_ledger.rs:62-98 | An exit keeps the books consistent and frees the signed entry cost, whatever the exit price and fee |
| Ledger.NetPnlOmitsEntryFees | crates/executor-core/src/paper_ledger.rs:100-102 | On flat consistent books net PnL is cash less all fees plus the entry fees |
| Risk.FlagsMeanGuards | crates/executor-core/src/warm_risk.rs:17-32 | Bit by bit what the published word means: each guard clears its own bits, no step restores one, and the word admits entries exactly when no guard fired |
| Risk.WarmRiskState.Flagged | crates/executor-core/src/warm_risk.rs:17-32 | The accumulating computation yields the flag word of the warm state |
| Risk.WarmRiskState.Publish | crates/executor-core/src/warm_risk.rs:34-36 | The global word becomes that of the warm state |
| Risk.RiskEngine.CheckEntry | crates/executor-core/src/risk.rs:111-146 | Decision and slots are those of the check function, slot written before the flag, edge and adverse checks |
| Risk.CheckFrame | crates/executor-core/src/risk.rs:119-127 | One check: slots never decrease, other symbols' slots stay, an Open raises its own slot to the packet's sequence number |
| Risk.CheckExactly | crates/executor-core/src/risk.rs:111-146 | Every decision of the check, and the slot it leaves, in the packet's own numbers: Stale, Duplicate, AdverseMoveExceeded and Open each exactly when, and the sequence number used up as soon as the packet is valid, in time, known and new |
| Risk.AdverseMoveExactly | crates/executor-core/src/risk.rs:97-109 | The adverse move exceeds a limit exactly when the limit is negative or Bybit has moved that many basis points of the reference the signal's way |
| Risk.NoDoubleEntry | crates/executor-core/src/risk.rs:124-127 | Over any calls under any flags, clocks and limits, Open decisions of one symbol carry strictly increasing sequence numbers |
| SafeModes.PhaseFollowsTrailingMisses | crates/executor-core/src/safe_mode.rs:28-55 | After any beats and misses the phase depends only on the misses since the last beat: halted exactly when some threshold is reached, closing exactly at the emergency one, in any order of thresholds |
| SafeModes.SafeMode.OnMiss | crates/executor-core/src/safe_mode.rs:33-44 | One miss takes the state to the miss function's |
| SafeModes.SafeMode.OnHeartbeat | crates/executor-core/src/safe_mode.rs:28-31 | A heartbeat clears misses and phase |
| Positions.StartupCheckSufficesExactly | crates/shared/src/validation.rs:86-90 | Every accepted target below one makes every take-profit on both sides beat both fees if and only if the smallest accepted target does on the long side |
| Positions.SmallFeesSuffice | crates/shared/src/config.rs:271-275 | That condition holds for every taker fee up to 1.5 percent and non-negative buffer |
| Positions.TwoPercentDoesNot | crates/shared/src/config.rs:271-275 | At a two percent fee the smallest accepted target is a loss: a concrete position |
| Positions.TakeProfitPaysExactly | crates/executor-core/src/position.rs:88-97 | For a given target: every take-profit price pays if and only if the target covers two fees after the fee it attracts |
| Positions.TakeProfitPays | crates/executor-core/src/position.rs:106-119 | The take-profit theorem for both sides under an accepted target |
| Positions.ExitExactly | crates/executor-core/src/position.rs:35-100 | Each exit reason is given exactly when its own condition on residual, impulse, velocity, time or price holds and no earlier one does; the position stays exactly when none does |
| Positions.ExitsAreSymmetric | crates/executor-core/src/position.rs:35-100 | Reflecting position, prices and packet never changes the exit decision: shorts are treated as mirrored longs through capture, invalidation, stop and target |
| Positions.StopsAreSymmetric | crates/executor-core/src/position.rs:106-119 | The brackets set for the two sides are mirror images at the entry price |
| Positions.BracketStraddlesEntry | crates/executor-core/src/position.rs:77-98 | A stop hit is a gross loss of at least a tenth of a percent of entry value per unit of multiplier and never a target hit too |
| Positions.LagCaptureIsAFraction | crates/executor-core/src/position.rs:35-41 | The capture ratio stays between 0 and 1 whatever the packet says |
| Metrics.WelfordIsTwoPass | crates/observer-core/src/math.rs:22-36 | After any updates the mean is sum over count and m2 is the sum of squared deviations from the final mean, hence non-negative |
| Metrics.Welford.Update | crates/observer-core/src/math.rs:23-29 | The in-place update is the recurrence step |
| Metrics.LookupIsAgedSample | crates/observer-core/src/math.rs:135-158 | After any history with positive timestamps the lookup is the newest of the last 2048 samples at least the age older than the newest, else the oldest retained |
| Metrics.SymbolMetrics.PriceAtAgeMs | crates/observer-core/src/math.rs:135-158 | The wrap-around search over the two arrays equals the list search on the retained samples, indices in range |
| Metrics.SymbolMetrics.PriceBySampleOffset | crates/observer-core/src/math.rs:123-132 | The sample-offset lookback equals its list form |
| Metrics.SymbolMetrics.Store | crates/observer-core/src/math.rs:97-104 | Writing the ring slot appends to the retained samples and drops only the oldest beyond 2048 |
| Metrics.SymbolMetrics.PushPrice | crates/observer-core/src/math.rs:97-120 | A push takes ring, moments, averages and ATR to the snapshot function's next value |
| Metrics.RingKeepsTheLatest | crates/observer-core/src/math.rs:97-104 | The ring holds exactly the last 2048 pushes |
| Metrics.SlotsAfterStore | crates/observer-core/src/math.rs:101-104 | Advancing the head keeps every retained sample in its slot and reuses only the oldest slot when full |
| Metrics.EmasWithinRange | crates/observer-core/src/math.rs:47-54 | All three averages stay within any positive bounds the prices respect |
| Metrics.RisingTrend | crates/observer-core/src/math.rs:106-108 | After prices that never fell: 0 < ema_200 <= ema_50 <= last price |
| Metrics.FallingTrend | crates/observer-core/src/math.rs:106-108 | After prices that never rose: 0 < last price <= ema_50 <= ema_200 |
| Metrics.AtrWarmsUpAsAverage | crates/observer-core/src/math.rs:109-117 | For the first fourteen changes ATR is their plain average |
| Metrics.AtrBounded | crates/observer-core/src/math.rs:109-117 | ATR stays between 0 and any bound on the price changes |
| Metrics.MomentsOfHistory | crates/observer-core/src/math.rs:105-105 | The moments after a history are those of its prices |
| Metrics.OffsetCountsBack | crates/observer-core/src/math.rs:123-132 | The sample-offset lookback is the first of that many newest samples, or the newest while there are no more |
| Smoothing.EmasAreSmoothed | crates/observer-core/src/math.rs:47-54 | After any positive history each average is one weighted sum: weight k = 2/51, 2/201, 2/501 on the newest price, decayed by 1-k per step back |
| Smoothing.AtrIsSmoothed | crates/observer-core/src/math.rs:109-117 | From fifteen prices on ATR is smoothing with weight 1/14 started at the plain average of the first fourteen changes |
| Smoothing.RegimeExactly | crates/observer-core/src/math.rs:160-172 | The regime is trend above twice the ATR, transition from 1.2 times, range otherwise or without ATR |
| Smoothing.VarianceIsUnbiased | crates/observer-core/src/math.rs:31-36 | The number under the root of sigma times n-1 is the sum of squared deviations from the plain mean |
| Entry.PipelineDecision | crates/executor-core/src/risk.rs:97-146 | For packets built by the tick branch on positive mids, check_entry opens exactly when the packet is valid, fresh, known, new, admitted by the flags and the limit is non-negative, and reports AdverseMoveExceeded exactly when the same holds and the limit is negative |
| Entry.ValidPacketLags | crates/observer-core/src/entry.rs:67-97 | A valid packet points one way, agrees with the sign of the impulse, and has a fresh Bybit mid strictly on the lagging side |
| Entry.ValidExactly | crates/observer-core/src/entry.rs:51-97 | A tick packet is valid, and long or short, exactly when gate, freshness, lead over Bybit, move over 100 ms, speed, captured lag, trend, volatility, score and expected move all say so, in prices; never both ways |
| Entry.TickNumbers | crates/observer-core/src/lag.rs:37-60 | Residual, impulse, lag and velocity of a packet are the price differences over their reference prices, and zero without one |
| Entry.TickStatistics | crates/observer-core/src/entry.rs:52-54 | The packet carries averages, regime, spread and score of the metrics, the score times the spread being the distance from the mean |
| Entry.ResidualSign | crates/observer-core/src/lag.rs:44-60 | The residual is positive exactly when Bybit is below the signal price, negative exactly when above |
| Entry.NoAdverseMove | crates/executor-core/src/risk.rs:97-109 | Bybit on the lagging side means an adverse move of zero |
| Entry.TrendGateFollowsPrices | crates/observer-core/src/entry.rs:75-97 | After a history that never fell no packet is a short, after one that never rose none is a long, for any lag, clock and thresholds |
| FollowThrough.WindowIsLatest | crates/observer-core/src/follow_through.rs:13-26 | The window is exactly the last capacity outcomes, capacity at least ten |
| FollowThrough.GateIsWinFraction | crates/observer-core/src/follow_through.rs:28-42 | The rate is a fraction, and the gate opens exactly below twenty samples or when wins reach the minimum share of the window |
| FollowThrough.FollowThroughTracker.Record | crates/observer-core/src/follow_through.rs:21-26 | Recording is the window step |
| FollowThrough.FollowThroughTracker.Rate | crates/observer-core/src/follow_through.rs:28-34 | The counting loop returns the win fraction, or 1 on an empty window |
| FollowThrough.WinsBounded | crates/observer-core/src/follow_through.rs:32-33 | Wins are all or none exactly when every or no outcome is a win |
| OrderBook.GreedyIsOptimal | research/quant/orderbook_sim.py:104-123 | Among all allocations within level capacities spending what the walk spent, none buys more, or gives away less when selling |
| OrderBook.MarginalPriceCertifies | research/quant/orderbook_sim.py:107-115 | Priced at the last level touched, no feasible allocation of any size gains on the walk |
| OrderBook.GreedyIsFeasible | research/quant/orderbook_sim.py:104-115 | The walk is itself a feasible allocation with its notional and quantity |
| OrderBook.WalkConserves | research/quant/orderbook_sim.py:104-115 | Filled plus remaining is the order, within the book's capacity, and more than 1e-9 remains only when every level is used up |
| OrderBook.SlippageIsMonotone | research/quant/orderbook_sim.py:96-132 | A larger order reports no less slippage, no less filled, and stays exhausted, on both sides, through early stop and exhausted books |
| OrderBook.VwapIsMonotone | research/quant/orderbook_sim.py:117-119 | The average price of a larger order is no better |
| OrderBook.WalkIsMonotone | research/quant/orderbook_sim.py:104-115 | A larger order fills no less notional and no less quantity |
| OrderBook.SlippageIsACost | research/quant/orderbook_sim.py:119-132 | On an uncrossed book slippage is non-negative, the fill is positive and at most the order, the VWAP no better than the touch |
| OrderBook.FillExactly | research/quant/orderbook_sim.py:92-132 | A fill for buy, long or ask (any case) is a Buy walked over the asks, no better than the best ask; any other is a Sell over the bids, no better than the best bid; slippage is the average price's distance from the middle of the touches, counted against the trader |
| OrderBook.FilledExactly | research/quant/orderbook_sim.py:86-118 | An order is filled exactly when the amount is positive, both sides have levels, and the side it takes offers something at its first level or, above 1e-9 dollars, at any |
| OrderBook.ExhaustedExactly | research/quant/orderbook_sim.py:131-131 | The exhausted flag is set exactly when the book is more than one dollar too thin |
| OrderBook.WalkLevels | research/quant/orderbook_sim.py:104-115 | The loop with its early stop computes the recursive walk |
| OrderBook.SimulateOnSnapshot | research/quant/orderbook_sim.py:86-132 | The order on a snapshot, with every None case, equals the simulation function |
| OrderBook.SearchSorted | research/quant/orderbook_sim.py:68-68 | Left insertion point of a time in the sorted snapshot times |
| OrderBook.NearestSnapshot | research/quant/orderbook_sim.py:68-77 | The two neighbours of the insertion point suffice: the nearest snapshot overall, the later on a tie, none exactly when all are over two minutes away |
| OrderBook.NearestIsUnique | research/quant/orderbook_sim.py:74-76 | At most one snapshot meets that description |
| OrderBook.SimulateMarketOrder | research/quant/orderbook_sim.py:79-132 | The whole call: the simulation on the nearest snapshot of the symbol, or none |
| Replay.GateAntitoneInLatency | crates/replay/src/main.rs:67-89 | On every log, whatever the residuals: a longer injected latency gives no larger profit factor, infinity included, and no larger follow-through rate, so a pass at one latency is a pass at every smaller one |
| Replay.FileGateAntitone | crates/replay/src/main.rs:155-174 | The same from the bytes of the log file through reading, empty-log refusal and gate |
| Replay.GateExactly | crates/replay/src/main.rs:14-30 | A log passes exactly when twenty packets count, two in five of them win, and the winners earn six fifths of what the others lose, each packet's earning written out; with losses under 1e-12 any win will do |
| Replay.FileGateExactly | crates/replay/src/main.rs:155-174 | From the bytes: an unreadable log is reported, an empty one refused, and any other passes exactly so |
| Replay.StatsAreSums | crates/replay/src/main.rs:51-65 | The statistics of every prefix are the count, wins, winnings, losses and fees summed packet by packet |
| Replay.EstimateAntitoneExactly | crates/replay/src/main.rs:75-89 | One packet's estimate is antitone in latency if and only if its residual is non-negative |
| Replay.OnlyPositiveResidualsWin | crates/replay/src/main.rs:51-65 | A counted packet without a positive residual loses at least 0.0016 at any latency |
| Replay.LoggedShortsLose | crates/replay/src/main.rs:51-89 | Every short the executor logs counts as a losing trade |
| Replay.PassingNeedsPositiveResiduals | crates/replay/src/main.rs:67-71 | A passing log has at least 20 counted packets of which at least 40 percent carry a positive residual |
| Replay.LatencyDecays | crates/replay/src/main.rs:51-65 | Between two latencies, on every prefix: same trades and fees, no more wins, profit scaled down at least by the capture ratio, losses at most, and not smaller unless a real loss remains |
| Replay.ReplayEngine.HandlePacket | crates/replay/src/main.rs:51-65 | The in-place statistics follow the packet step |
| Replay.RunGate | crates/replay/src/main.rs:155-174 | Read, refuse an empty log, feed every packet, ask the gate: the verdict function of the file |
| PacketLog.RoundTripExactly | crates/shared/src/packet_log.rs:27-61 | Reading back any append session returns exactly the accepted packets if and only if none of them had an empty encoding; otherwise the reader fails on a zero length |
| PacketLog.TruncationExactly | crates/shared/src/packet_log.rs:46-60 | A log cut at any byte reads as its whole records when at most three bytes are left over, and fails with end of file otherwise |
| PacketLog.ReadsExactlyFramedFiles | crates/shared/src/packet_log.rs:43-61 | The reader returns packets for exactly the files that are readable records followed by at most three bytes |
| PacketLog.ReadPackets | crates/shared/src/packet_log.rs:43-61 | The reading loop computes the parse of the file with every error |
| PacketLog.PacketLogWriter.Append | crates/shared/src/packet_log.rs:27-40 | A packet is refused exactly when unencodable or over 4096 bytes, leaving no byte behind; otherwise its frame is appended |
| PacketLog.PacketLogWriter.AppendAll | crates/shared/src/packet_log.rs:27-40 | A session appends the frames of the accepted packets in order |
| PacketLog.LengthRoundTrip | crates/shared/src/packet_log.rs:36-37 | The four length bytes decode to the length |
| PacketLog.LeastByteFirst | crates/shared/src/packet_log.rs:36-37 | The length is written least significant byte first |
| PacketLog.KeptExactly | crates/shared/src/packet_log.rs:27-40 | Exactly the packets that encode to at most 4096 bytes are kept, as often as offered and in order |
| PacketLog.ParseFrames | crates/shared/src/packet_log.rs:46-60 | Whatever follows readable records is parsed as if it stood alone |
| EdgeProfile.AcceptedExactly | crates/shared/src/validation.rs:15-61 | For any findings: startup accepts the written profile exactly when status is pass, the source is live or binance_vision and an edge stayed positive; equivalently when enough days of known origin hold a symbol worth keeping; the hours complaint can never be made |
| EdgeProfile.ValidateExactly | crates/shared/src/validation.rs:15-61 | For any profile: accepted exactly with status, method, known source, fourteen days, a positive edge and three hours for each such edge, and otherwise told the first of these it fails |
| EdgeProfile.PassYetRefusedExactly | research/quant/analyze_lead_lag.py:560-588 | A profile with status pass is refused exactly for an unknown hand-given source, or when no passing symbol's best hour exceeds 0.005 bps |
| EdgeProfile.StatusExactly | research/quant/analyze_lead_lag.py:502-561 | The status is pass exactly with fourteen days of data that are not synthetic and a requested symbol whose primary findings have positive mean and best hour, three hours and fifty events |
| EdgeProfile.KeptEdgeIsBestHour | research/quant/analyze_lead_lag.py:266-266 | A positive edge is the best hour to within half a hundredth |
| EdgeProfile.BlankedEdgeValue | research/quant/analyze_lead_lag.py:526-529 | A blanked edge is written, to half a hundredth, as the best hour or the lower mean, never above zero |
| EdgeProfile.TinyEdgePassesYetIsRefused | research/quant/analyze_lead_lag.py:502-540 | A concrete steady edge of 0.004 bps passes the gate, rounds to zero and is refused |
| EdgeProfile.EdgesAreKeptOrBlanked | research/quant/analyze_lead_lag.py:524-529 | Through rounding and both passes an edge is positive exactly when the gate holds with best hour above 0.005, with its hours kept then and blanked otherwise |
| EdgeProfile.AltEnabledExactly | research/quant/analyze_lead_lag.py:328-334 | An alternative symbol is enabled exactly when the profile passed and its own edge was kept |
| EdgeProfile.RejectedSymbolsTradeAllHours | crates/executor-bin/src/main.rs:513-519 | Under the written profile a kept symbol trades only in its profitable hours while a rejected symbol trades around the clock |
| EdgeProfile.AnalyzeSymbol | research/quant/analyze_lead_lag.py:451-540 | Running the requested methods yields the draft and the verdict of the primary one |
| EdgeProfile.Draft | research/quant/analyze_lead_lag.py:429-558 | The symbol loop leaves one drafted edge per analysed symbol and passes exactly when some primary finding does |
| EdgeProfile.Normalize | research/quant/analyze_lead_lag.py:573-576 | The patch loop normalises every edge and no other |
| EdgeProfile.Analyze | research/quant/analyze_lead_lag.py:560-588 | The written profile, entry by entry |
| EdgeProfile.RoundsToPositive | research/quant/analyze_lead_lag.py:266-266 | Rounding to hundredths is positive exactly above 0.005 |

## Left out

- Floating point: rounding, NaN and infinities, and the narrowing of prices to `f32`.
- `u32` and `usize` wrap-around of `seq_num`, `atr_count`, `consecutive_misses` and the Welford count.
- The live order path: fills, cancels, exchange reconcile and startup seeding. Only the two-lock failed-stop halt of it is modelled, in `Interleaving`.
- Conservation.CashIsConserved: speaks of the simulated ledger; fill timestamps and the JSONL and summary files are not modelled.
- ExecutorLoop.EventLoop.Tick: one clock reading serves all exit checks of a tick, where the source reads the clock per position; at most one position is ever open. The packet-log append inside the tick, whose failure is only logged, is not part of it.
- ExecutorLoop.EventLoop.Observe: per-symbol metrics and trackers are held by value; the in-place classes are proved separately as `Metrics.SymbolMetrics` and `FollowThrough.FollowThroughTracker`.
- Interleaving.InterleavingsStayCoherent: covers the warm state, the published word, operator halt and safe mode; the mutexes around lags, depths, metrics and trackers are not taken apart, so a Bybit mid arriving inside a tick is modelled as arriving before or after it.
- TakeProfits.TakeProfitBeatsFees: treats the target and stop as the code computes them; the unused break-even helpers of the position manager are not modelled.
- Brackets.StopLossCosts: asks for a non-negative ATR multiplier, the shipped one is positive; with a negative one the stop would sit on the winning side.
- Positions.ExitsAreSymmetric: asks for positive mirrored brackets, since a non-positive stop or target disables its check.
- Metrics.LookupIsAgedSample: asks for positive timestamps within `u64`; a zero timestamp takes the sample-offset fallback, which `Metrics.SymbolMetrics.PriceAtAgeMs` covers.
- Entry.TrendGateFollowsPrices: the regime filter plays no part in it, because the filter admits every regime the metrics can report.
- Halts.TrustedExactly: letters are folded as ASCII; in Python's `lower` a few other characters fold to letters too, which `OrderBook.FillExactly` leaves out.
- Timer liveness: the 100 ms sleep restarts on every loop iteration, so nothing is claimed about timers ever firing.
- PacketLog.RoundTripExactly: the payload encoding is a parameter with decode after encode the identity; the postcard format itself and other I/O errors are not modelled.
- PacketLog.TruncationExactly: says nothing about appending to a torn log.
- Building the order-book snapshots from a data frame, with its down-sampling to 10,000 times per symbol, and the slippage distribution.
- The research pipelines in front of the gate (event joins, correlation, hourly grouping): their per-symbol results are inputs, and the other profile fields, the TOML syntax and the params file are not modelled.
- Startup checks of deployment mode, packet version and spot symbols: single branches.
- Symbol registry, shadow metrics, panel, Telegram, collector, order signing, status files, and the observer binary: wrappers around libraries or single-branch code.
- The specification document's trailing stops, partial closes and gap pauses: the code does not implement them.
