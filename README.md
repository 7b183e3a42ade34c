# alpaca-trader: a verified model of the trading core

This project models the decision core of a small algorithmic trading bot
that trades on an Alpaca brokerage account. It covers three pieces.

- **The SMA crossover strategy** (`strategy.py`). It compares a 10-bar
  and a 30-bar simple moving average of one-minute closes:
  - a golden cross (short SMA rises above the long one) is a buy signal;
  - a death cross (short SMA falls below) is a sell signal.

  One run takes a snapshot of the positions and scans the universe
  `SPY`, `BTC/USD`. For each symbol whose bars arrive it acts on the
  signal. A buy is a 100-dollar notional market order, placed unless
  five positions are open or the symbol is already held. A sell closes
  the symbol's position, but only if one is held.
- **The risk manager** (`risk_management.py`). The first successful
  account reading fixes a baseline (the account's last equity). A later
  reading 5% or more below the baseline liquidates every position,
  cancels the orders, and stops trading. Otherwise it places a 2%
  sell-side trailing stop, good till canceled, for every position that
  has no such stop yet.
- **The main loop** (`bot.py`). It connects and refuses a blocked
  account. Then it runs heartbeats:
  - the risk check runs first, then the strategy, then a 15-second pause;
  - an exception leads to a 30-second retry pause instead;
  - a drawdown halt ends the loop;
  - on a keyboard interrupt it cancels all open orders and exits.

The other side of the brokerage is not modelled as code. Every call the
core makes is appended to an event log, `Broker.Client.events`. Whatever
the brokerage and the market-data service answer comes in as explicit input
(`Result` snapshots). Each imperative method is proved against a function
that gives the exact list of calls it makes (`RunEvents`, `ReconcileEvents`,
`RiskStep`, `HeartbeatTrace`, `LoopTrace`, `MainTrace`). The lemmas state
what the source promises about those call lists: when orders are placed,
with which terms, in which order, and how often.

Modules: `Wrappers` (Option, Result), `Crossover` (moving averages and the
signal), `Broker` (the brokerage's data and the call log), `Strategy`,
`Risk`, `Bot`.

Behaviour worth noting, as the code has it:
- The buy order is good till canceled (`strategy.py:111`), not a day order.
- A failed liquidation (`close_all_positions` raising, `risk_management.py:31`)
  propagates to the main loop, which pauses 30 seconds and retries. It is
  not a halt.
- A trailing stop is submitted for every position without one
  (`risk_management.py:42-61`), short ones included, not only for long ones.
- An exception fetching one symbol's bars ends the rest of the scan for that
  run. The single `try` in `strategy.py:78-137` covers the whole loop. It is
  not a per-symbol skip.
- The symbol universe is the hard-coded list of `strategy.py:21`.

## Model

| member | source | states |
|---|---|---|
| Crossover.RollingMeanBetween | strategy.py:52-53 | A defined rolling mean lies between the smallest and the largest close of its window: any bound on those closes bounds the mean. |
| Crossover.CheckCrossover | strategy.py:47-69 | Fewer than `long` closes give no signal. Any signal needs at least `long + 1` closes, because the previous long SMA must be defined. |
| Crossover.CrossoverMeaning | strategy.py:55-67 | Buy holds exactly on a golden cross: the short mean is strictly below the long mean at the previous bar and strictly above it at the last bar. Sell holds exactly on the mirror-image death cross. |
| Crossover.SignalsExclusive | strategy.py:64-67 | A golden cross and a death cross never hold together. Equal means at either bar give neither. |
| Crossover.SignalDependsOnLastBars | strategy.py:52-59 | The signal depends only on the last `long + 1` closes. |
| Crossover.RisingNeverSells | strategy.py:64-67 | A strictly rising series never gives a sell signal. |
| Crossover.FallingNeverBuys | strategy.py:64-65 | A strictly falling series never gives a buy signal. |
| Crossover.ReflectSwapsSignal | strategy.py:64-67 | Mirroring the prices (c becomes k - c) turns buy into sell, sell into buy, and no signal into no signal. |
| Strategy.HeldMembership | strategy.py:80 | A symbol counts as held (the `in existing_positions_symbols` tests of lines 100 and 122) exactly when some position of the snapshot is in that symbol. |
| Strategy.ScanMembership | strategy.py:82-134 | A call is in a scan exactly when it belongs to a symbol the scan reached, meaning no earlier bar request raised. |
| Strategy.BuyRequests | strategy.py:93-116 | A market order is sent exactly for the reached symbols Decide chose to buy: a golden cross, the snapshot below the limit of 5, and the symbol not held. Each is 100 dollars notional, buy side, good till canceled. |
| Strategy.CloseRequests | strategy.py:118-132 | A position close is requested exactly for the reached symbols with a death cross that the snapshot holds. |
| Strategy.PositionsReadOnce | strategy.py:78-86 | A run reads the positions exactly once, first. Every later call belongs to the scan. |
| Strategy.RunOrders | strategy.py:104-113 | Every market order of a run is the fixed-size buy of a scanned symbol. |
| Strategy.ScanSplit | strategy.py:82-134 | Scanning two groups of symbols, when no bar request in the first group raises, gives the first group's calls followed by the second group's. |
| Strategy.ScanOrderIndependent | strategy.py:82-134 | Swapping two groups of symbols, when no bar request in either raises, does not change which calls are made (as a multiset). This covers both orders of the two-symbol universe. |
| Strategy.GoldenCrossBuysOnce | strategy.py:93-113 | With no positions and a golden cross on SPY, the run makes exactly these calls: the position read, the bar requests, the plot, and one 100-dollar buy of SPY. |
| Strategy.LimitReachedNoOrder | strategy.py:97-99 | With five positions open, a golden cross places no order. |
| Strategy.SnapshotLimitAllowsOvershoot | strategy.py:79-102 | With four positions open and golden crosses on both symbols, both are bought. The limit is checked against the snapshot taken at the start of the run. |
| Strategy.TradingStrategy.constructor | strategy.py:14-26 | The strategy uses the given client and the fixed universe. |
| Strategy.TradingStrategy.Decide | strategy.py:87-134 | Handling one symbol's bars appends exactly the calls the scan specifies for that symbol. |
| Strategy.TradingStrategy.ScanSymbol | strategy.py:82-92 | One pass of the scan loop requests the symbol's bars. It reports exactly when that request raised, and otherwise decides for the symbol. |
| Strategy.TradingStrategy.Run | strategy.py:71-137 | One run appends exactly the calls `RunEvents` gives for the answers. Every exception is absorbed. |
| Risk.FirstReadingSetsBaseline | risk_management.py:19-23 | The first successful reading sets the baseline to `last_equity` and continues. It judges no drawdown and liquidates nothing. |
| Risk.BaselineSetOnce | risk_management.py:12-23 | Once set, the baseline never changes. While it is unset, only a successful account reading sets it. |
| Risk.HaltIffDrawdown | risk_management.py:25-35 | With a nonzero baseline, the risk step halts exactly when the drawdown limit is reached and the liquidation is accepted. Liquidation is requested exactly on a breach, and at most once. A halting step is the account read and the liquidation alone. |
| Risk.FailedLiquidationRaises | risk_management.py:27-33 | On a breach whose liquidation fails, the whole risk step is the account read and the liquidation. It raises, with the baseline kept. |
| Risk.NoBreachContinues | risk_management.py:25-35 | Without a breach, the drawdown check reads the account, keeps the baseline and continues. |
| Risk.DrawdownThreshold | risk_management.py:25-27 | For a positive baseline, the limit is reached exactly when the portfolio value is at most 95% of the baseline. |
| Risk.DrawdownExamples | risk_management.py:25-35 | Against a baseline of 1000: 940 halts, 960 continues, 950 (exactly -5%) halts. |
| Risk.DrawdownBeforeStops | risk_management.py:70-75 | Stops are managed only after the drawdown check passed. |
| Risk.StopRequestKinds | risk_management.py:37-64 | Stop management only reads the positions and the orders and submits trailing stops. |
| Risk.RiskStepKinds | risk_management.py:66-77 | A risk step makes only risk calls and the position read. Every stop it submits protects a position of the snapshot it read. |
| Risk.StopRequestsExact | risk_management.py:42-61 | A stop is submitted exactly for the positions with no sell-side trailing stop for their symbol. It covers the whole quantity: sell, good till canceled, trail 2.0 percentage points. |
| Risk.StopsPerPosition | risk_management.py:42-61 | A symbol gets no stop if it is already protected. Otherwise it gets one stop per position in that symbol. |
| Risk.AllProtectedNoStops | risk_management.py:44-51 | When every position is protected, no stop is submitted. |
| Risk.ReconcileIdempotent | risk_management.py:37-64 | Once the stops of one pass are in place, a second pass submits nothing. |
| Risk.RiskManager.constructor | risk_management.py:8-12 | A new risk manager has no baseline. |
| Risk.RiskManager.TrackDailyDrawdown | risk_management.py:14-35 | The verdict, the new baseline and the calls are those of `DrawdownStep`. A set baseline is kept. |
| Risk.RiskManager.ProtectPosition | risk_management.py:42-64 | One pass of the stop loop submits the position's stop exactly when no order protects its symbol yet. |
| Risk.RiskManager.ManageTrailingStops | risk_management.py:37-64 | It succeeds exactly when both reads succeed, and appends exactly `ReconcileEvents`. |
| Risk.RiskManager.Run | risk_management.py:66-77 | The verdict, baseline and calls are those of `RiskStep`. A set baseline is kept. |
| Bot.RiskReadsAccountOnce | risk_management.py:14-17 | Every risk check reads the account exactly once, as its first call, and never pauses. |
| Bot.HeartbeatEvents | bot.py:31-48 | No heartbeat cancels orders. Every order a heartbeat places carries the fixed terms. |
| Bot.RiskBeforeStrategy | bot.py:34-40 | In a heartbeat the risk check's calls come first, as a prefix, and no risk call follows a strategy call. Unless the risk check let trading go on, the heartbeat is the risk check alone, followed by the retry pause after an exception; the strategy makes no call, not even its positions read. |
| Bot.HeartbeatHalts | bot.py:35-37 | A heartbeat halts exactly when the risk check does. It then has read the account and liquidated, and made no other call. |
| Bot.FailedLiquidationRetries | bot.py:34-46 | A breach whose liquidation fails does not stop the bot. The heartbeat is the account read, the liquidation and the 30-second retry pause, and the loop goes on with the same baseline. |
| Bot.HeartbeatShape | bot.py:31-48 | A heartbeat that does not halt reads the account once, first. It ends in exactly one pause: 30 seconds after an exception, 15 otherwise. |
| Bot.LoopEnd | bot.py:29-57 | The loop is either still running, with one pause and one account read per heartbeat, or it stopped right after the liquidation, or right after the run's single order cancellation. |
| Bot.LoopTerms | bot.py:29-48 | Every order of the loop carries the fixed terms. |
| Bot.BaselineFromFirstReading | bot.py:26-40 | The baseline is the first successful reading of the loop and stays fixed. Failed heartbeats do not reset it. |
| Bot.MainOutcome | bot.py:11-27 | A failed or blocked account ends the run after the account read alone. Every order of every run carries the fixed terms. |
| Bot.Controller.constructor | bot.py:14 | The controller starts connecting with an empty call log. |
| Bot.Controller.Connect | bot.py:16-27 | It reads the account. It ends the run on failure or a blocked account, and otherwise creates the strategy and a fresh risk manager. |
| Bot.Controller.Heartbeat | bot.py:31-48 | The calls, phase and baseline are those of `HeartbeatTrace`. The same risk manager and strategy persist. |
| Bot.Controller.Shutdown | bot.py:50-57 | It cancels the orders once and terminates, whatever the cancel answers. |
| Bot.Controller.Loop | bot.py:29-57 | The calls, phase and baseline are those of `LoopTrace`. |
| Bot.Controller.RunBot | bot.py:11-57 | The calls, phase and baseline are those of `MainTrace`. |

## Left out

- Logging (`logger.py`), configuration and credentials (`config.py`, `trade_config.py`) and the SDK client objects. They do not affect decisions.
- `market_scanner.py` is not part of this model; the core does not call it.
- Chart rendering (`visualization.py`). Each plot is one `PlotCrossover` event; writing its image file is not modelled.
- Prices and account values are exact reals. Floating-point rounding and NaN closes are not modelled.
- Time: wall-clock sleeps are `Sleep(n)` events. The data request's one-minute timeframe is not modelled.
- Interrupts arrive only between heartbeats. An interrupt in the middle of a heartbeat, and signals other than the keyboard interrupt, are not modelled.
- The infinite `while True` loop is modelled as a finite run of heartbeats. Phase `Running` means the loop is still going.
- Crossover.CheckCrossover: has no exception path. Pandas failing on a malformed table is not modelled.
- Risk.RiskManager.ManageTrailingStops: the outcome of each stop submission is not an input, because the code catches it and carries on. The same holds for the buy order, the position close and the shutdown cancel. Every contract holds whatever those calls answer.
- Broker answers beyond what the core reads: only the fields used (cash, portfolio value, last equity, trading blocked, symbol, quantity, side, order type) are modelled.
- A zero baseline makes the division raise. This is modelled as the `Raised` verdict, which the loop treats like any other exception.
