# Verified model of an MT5 trading bot's decision core

This project is a Dafny model of the deterministic core of a MetaTrader 5
trading bot. The bot watches a price feed, turns indicator outputs into buy,
sell or hold signals, opens sized positions with stop-loss and take-profit
prices, and closes them again through per-position exit engines. The model
covers these parts, one Dafny module each:

- **Exit engines.** There are two:
  - the tick-driven engine (`TickExit`), with soft money, price and pip stops, early abort, reversal in profit, and anchor/buffer trailing;
  - the hybrid engine (`HybridExit`), with a per-ticket cooldown, a higher-timeframe bias cache, partial closes and candle-close profit exits.

  Both keep per-ticket state and prune it when a ticket closes. The hybrid engine delegates to break-even arming managers. These come in a profit-based copy (`ProfitManagers`) and a pip-based copy (`PipManagers`). The position accessors they share are in `ExitShared`, and the pip conversion they share is in `Market`.
- **Orchestrator** (`Orchestrator`). It:
  - triggers once per strictly newer closed bar of each symbol, running entries before candle-close exits;
  - selects the closed bar and normalises candle times;
  - dispatches generated signals, buffering un-pulled-back entries;
  - routes exit actions and confirmed n-tick signals on every tick.
- **OCO straddles** (`Oco`). Bracket prices are placed as a pair of stop orders. Each tick the groups are reconciled against the broker's pending orders: on expiry, when one leg is gone, and when both are gone.
- **Signal rules.** These cover:
  - the helpers' strong-signal strategy with its entry filters and ATR, the multi-timeframe gate, and the count-based n-tick confirmation (`SignalGeneration`);
  - the movement-based n-tick confirmation (`NTickMovement`);
  - indicator vote counting (`VoteStrategy`);
  - the two SMA/MACD decision rules (`StrongRules`).
- **Execution.** This covers:
  - signal routing, direction and lot extraction, and the exit debounce (`TradeExecution`);
  - pip, point and stop distances, SL/TP geometry, volume normalisation and the simulated position book (`Broker`);
  - lot sizing (`Risk`).
- **Entry strategies.**
  - The multi-timeframe scanner and the single-signal entry helper (`Entry`).
  - The opening-range breakout strategy (`Breakout`).
  - Their shared deduplication and risk split (`SignalBatch`).
- **Data layer.**
  - The live and multi-timeframe candle collectors (`Candles`).
  - The signal backtest over a sliding window (`Backtest`).

Python's loosely typed values are modelled by `Base.Value`, a sum of None, bool, int, float, str, datetime and "other object". Broker records and signal dictionaries are `Base.Record`, which is either a dict or an object with attributes. Python's conversions are modelled with their failure cases: `float()`, `int()`, `str.strip()` and `str.lower()`. An exception the code lets escape is a `Raised` result.

The objects that the source updates in place are Dafny classes:
- the exit engines;
- the OCO manager;
- the orchestrator;
- the n-tick wrappers;
- the trade executor;
- the simulated broker;
- the risk manager;
- the scanners;
- the collectors.

Each class exposes a `State()` function. Each method that changes state states its whole new state in terms of the old one. A method with a loop is tied to a fold over its input: the engines' `OnTick` to `VisitAll` over the positions, `RunOnce` to `RunPass` over the symbols, and `DispatchDirect` to `Direct` over the signals. The hybrid engine's `OnCandleClose` states its new state case by case: unchanged, cleared, or the first candidate's cooldown and state. The properties the code promises are then proved about those functions: latches, monotone trackers, once-only triggers, pruning, bounds and round trips.

Prices, profits and volumes are `real`. The following are parameters:
- the clock;
- uuids;
- what the broker or MetaTrader returns;
- the indicator outputs.

## Model

| member | source | states |
|---|---|---|
| Base.FloatOrNone | app/strategies/exit/exit_shared.py:71-83 | None is reported exactly for a missing value or the empty string; a float or an int reads as that number |
| Base.GetAttr | app/strategies/exit/exit_shared.py:86-89 | `getattr(r, name, None)`: a dict has no attributes, an object gives the attribute or None |
| ExitShared.ProfitAndLossExclusive | app/strategies/exit_trade.py:231-256 | a price clear of the entry by a non-negative margin in the position's favour is never at or past a non-negative stop distance against it, so the in-profit test and a price stop never both hold |
| ExitShared.CloseAction | app/exit_strategies/exit_trade.py:295-312 | the exit instruction closes on the side opposite the position, keeps ticket, symbol and reason, and asks for volume × ratio lots |
| ExitShared.NewPosState | app/strategies/exit/exit_shared.py:14-24 | a fresh per-ticket state has the given anchor and previous price, zero counters, no favourable latch and none of the manager attributes attached |
| ExitShared.GetAny | app/strategies/exit/exit_shared.py:27-38 | the value of the first key present (by key for a dict, by attribute for an object) and None when no key is present |
| ExitShared.PosSymbol | app/strategies/exit/exit_shared.py:41-43 | None exactly when the symbol value is falsy; otherwise a non-empty text equal to the stored string |
| ExitShared.SideOf | app/strategies/exit/exit_shared.py:46-64 | text "buy"/"long" gives buy and "sell"/"short" gives sell after strip and lower-casing, integer codes 0 and 1 give buy and sell, None and foreign values give None |
| ExitShared.IsBreakEven | app/strategies/exit/exit_shared.py:86-90 | a dict, or an object without a `profit` attribute, always counts as break-even; a numeric profit is break-even iff it is at least 0; the comparison raises exactly on a non-numeric profit |
| ExitShared.ReadPosition | app/strategies/exit_trade.py:154-162 | the position is complete iff symbol, side, ticket, entry and volume are all present, and then the view holds exactly those values; a float() failure on entry or volume raises |
| ExitShared.AttrProfit | app/exit_strategies/managers/loss.py:46-48 | the profit the managers compare is never missing: a dict gives 0.0, and it is invalid exactly when the `profit` attribute is non-numeric |
| ExitShared.BreakEvenIsNonNegativeProfit | app/strategies/exit/exit_shared.py:86-90 | `is_break_even` raises exactly when the managers' profit reading is invalid, and otherwise is "that profit ≥ 0" |
| ExitShared.TickValue | app/exit_strategies/managers/loss.py:12-15 | no tick gives None; otherwise the tick's value for the key, or None when the key is absent |
| ExitShared.TicketKeyPriority | app/strategies/exit/exit_shared.py:67-68 | the ticket is read from "ticket", then "id", then "position", then "order", and is None when none is present |
| ExitShared.Pruned | app/strategies/exit_trade.py:421-424 | the pruned map keeps exactly the open tickets among those it had, each with its state unchanged |
| Broker.PointSize | app/execution/broker.py:239-245 | the symbol's point when its description is known, otherwise a positive fallback (0.00001, or 0.001 for JPY symbols) |
| Broker.PipSize | app/execution/broker.py:247-263 | a pip is always positive without symbol info (0.0001, or 0.01 for JPY symbols) |
| Broker.MinStopDistance | app/execution/broker.py:265-271 | with symbol info the minimum stop distance is stops level × point |
| Broker.PipIsTenPointsForFractionalQuotes | app/execution/broker.py:239-271 | a pip is ten points for 3- and 5-digit symbols and for both fallbacks, one point for any other digit count; without symbol info the minimum stop distance is two (positive) points |
| Broker.ParseUnits | app/execution/broker.py:403-404 | only "points" and "pips" are accepted units |
| Broker.UnitSize | app/execution/broker.py:412-416 | one unit is a point in points mode and a pip in pips mode |
| Broker.CalculateSlTp | app/execution/broker.py:387-430 | raises exactly for units other than points and pips; otherwise the stop loss and take profit are the raw geometry at the unit's step, each rounded to the symbol's digits |
| Broker.SlTpGeometry | app/execution/broker.py:406-426 | in pips mode a BUY's stop loss lies at least MIN_SL_PIPS pips below the price and its take profit at or above it; a SELL is the mirror image |
| Broker.EnforceMinDistance | app/execution/broker.py:318-329 | a requested stop stays absent when absent; a stop already at least the minimum distance from the price is kept; any other is moved so that it ends at least that distance away |
| Broker.RequestedStop | app/execution/broker.py:315-316 | a zero stop means "no stop": a stop that is passed on is never 0 |
| Broker.LotValue | app/execution/broker.py:381-385 | the symbol's contract size when known, otherwise 100000 |
| Broker.NormalizeVolume | app/execution/broker.py:298-303 | raises exactly when the volume step is 0 (division by zero); otherwise the result is the step-snapped, clamped volume rounded to two decimals |
| Broker.NormalizedVolumeWithinLimits | app/execution/broker.py:124-131 | with volume_min ≤ volume_max, both whole hundredths of a lot, the normalised volume lies within [volume_min, volume_max] |
| Broker.TradeRecordReadsBack | app/execution/broker.py:185-197 | the exit engines read a simulated trade back as it was opened (symbol, side, ticket, price as entry, lot as volume), and a sim trade, being a dict, always counts as break-even |
| Broker.TradeRecordKeys | app/execution/broker.py:185-197 | the symbol, type, ticket, price_open and volume keys of a simulated trade hold its symbol, side code 0/1, ticket, fill price and lot |
| Broker.WithoutTicket | app/execution/broker.py:81-83 | a trade stays in the book exactly when its ticket differs from the closed one |
| Broker.TradesOn | app/execution/broker.py:48-49 | exactly the book's trades on the given symbol |
| Broker.Records | app/execution/broker.py:46-50 | the book hands out one dict per trade, in book order |
| Broker.WithoutTicketOrdered | app/execution/broker.py:81-83 | closing a ticket keeps the book's tickets strictly increasing and below the next ticket to issue |
| Broker.ConsOrdered | app/execution/broker.py:182-183 | a trade whose ticket is below every later one can head an ordered book |
| Broker.SimBroker.constructor | app/execution/broker.py:15-20 | the book starts empty with ticket counter 1 |
| Broker.SimBroker.Place | app/execution/broker.py:176-230 | a backtest order without a price raises and changes nothing; otherwise the new trade gets the current ticket, the counter goes up by one, and the trade is appended at the historical price (backtest), the quote's ask or bid (demo) or 1.0 without a quote; the book's tickets stay strictly increasing and unique |
| Broker.SimBroker.ClosePosition | app/execution/broker.py:53-88 | nothing happens without a ticket, symbol or side or when the ticket is not an integer; otherwise every trade with that ticket leaves the book, the others stay in order, the counter is untouched, and the answer is True |
| Broker.SimBroker.OpenPositions | app/execution/broker.py:46-50 | the whole book without a symbol, otherwise exactly the trades on that symbol, as dicts |
| Broker.IntOfTicket | app/execution/broker.py:75-78 | `int(ticket)`: an int is itself, None and foreign values fail |
| Market.PipsToPriceIsLinear | app/strategies/exit_trade.py:527-541 | converting pips to a price distance is proportional: n pips are n times one pip, and zero pips are no distance |
| Market.PipsToPriceFallbacks | app/strategies/exit_trade.py:527-541 | without a broker pip the conversion uses the pip of the terminal's symbol description (the same pip the execution broker reports), and with no symbol at all 0.0001 per pip |
| ProfitManagers.ArmingInit | app/exit_strategies/managers/loss.py:53-58 | the arming attributes are attached once, all false or zero, and a state that already has them is left alone |
| ProfitManagers.LossRules | app/exit_strategies/managers/loss.py:46-119 | outcome and new state are the loss step function's, which keeps these promises: exits close volume × ratio on the opposite side for profit_drop, profit_drop_after_be or be_recovered_after_unprofit only; inside the arming window each call counts exactly one arming tick, profit ≤ -5 exits with profit_drop (and only then), break-even arms with no exit, and otherwise only the tick is counted; arming is never undone; a used-up window without arming does nothing; after arming the first loss latches `was_unprofitable_after_be` with the profit, profit ≤ -5 exits with profit_drop_after_be (iff), after the latch 0 < profit < 0.05 exits with be_recovered_after_unprofit, and any other profit decides nothing |
| ProfitManagers.LossCheckExitOnTick | app/exit_strategies/managers/loss.py:35-119 | outcome and new state are the check function's: a position missing a field gives no decision and leaves the state unchanged, a float() failure raises; otherwise the loss rules above hold with the `profit` attribute (missing counts as 0.0) and the break-even reading; every exit closes the read position at volume × ratio |
| ProfitManagers.ProfitRules | app/exit_strategies/managers/profit.py:79-143 | outcome and new state are the profit step function's, which keeps these promises: the only exit is trailing_breach_gt_5c, and once armed it fires exactly when 0 < profit < best and best − profit > 0.04; unarmed and not at break-even it only counts the tick and records the price; arming records the tick count and price; arming is never undone; the best profit never decreases and a new best resets the breach counter; a small pull-back counts a breach tick and no pull-back resets it; the no-exit path of an armed position records the price and counts the tick |
| ProfitManagers.ProfitCheckExitOnTick | app/exit_strategies/managers/profit.py:42-143 | outcome and new state are the check function's: switched off, or a position missing a field, gives no decision and leaves the state unchanged; otherwise the profit rules above hold, so an armed pull-back of more than 0.04 below the best profit closes the read position at volume × ratio with trailing_breach_gt_5c, and no other exit is made |
| ProfitManagers.ProfitStepMeetsSpec | app/exit_strategies/managers/profit.py:79-143 | the profit manager's step function keeps every promise stated for the profit rules |
| ProfitManagers.TrailKeepsBest | app/exit_strategies/managers/profit.py:96-143 | the trailing step always leaves a best profit, never lowers it, leaves arming alone, and exits exactly when 0 < profit < best and best − profit > 0.04 |
| ProfitManagers.TrailRules | app/exit_strategies/managers/profit.py:96-143 | the trailing branch of the profit manager computes exactly the trailing step: its outcome and its new position state |
| ProfitManagers.ProfitIdleMeetsSpec | app/exit_strategies/managers/profit.py:79-94 | with a readable profit, break-even not armed and the arming check answering no, the step keeps every promise of the profit rules |
| ProfitManagers.ProfitArmedMeetsSpec | app/exit_strategies/managers/profit.py:79-143 | with a readable profit and break-even armed before or by this tick, the step keeps every promise of the profit rules |
| PipManagers.PipOr | app/strategies/exit/managers/loss.py:47 | a zero pip falls back to 0.0001, a non-zero one is kept |
| PipManagers.PipGain | app/strategies/exit/managers/loss.py:50-54 | with a positive pip the gain is positive exactly when the price is beyond the entry in the position's favour, and zero exactly at the entry |
| PipManagers.PipLossRules | app/strategies/exit/managers/loss.py:46-111 | a non-numeric price raises and changes nothing; exits close volume × ratio on the opposite side for pip_drop or crossed_to_loss_after_be only; inside the window each call counts one arming tick, a gain ≤ -3 pips exits with pip_drop (and only then), a gain ≥ 0 arms with no exit; arming is never undone; after arming the first loss exits with crossed_to_loss_after_be and latches, and every later call does nothing |
| PipManagers.PipLossCheckExitOnTick | app/strategies/exit/managers/loss.py:35-111 | a position missing a field gives no decision and leaves the state unchanged, a float() failure raises; otherwise the pip loss rules hold on the tick's closeable price |
| PipManagers.CrossedToLossFiresOnce | app/strategies/exit/managers/loss.py:98-111 | two consecutive calls on one state never both exit with crossed_to_loss_after_be: the first sets the latch that blocks the second |
| PipManagers.PipProfitRules | app/strategies/exit/managers/profit.py:80-138 | nothing happens before break-even is armed; no trailing while the position's own profit is ≤ 0; the only exit is trailing_breach_gt_0.4pip, and while trailing it fires exactly when 0 < gain < best and best − gain ≥ 0.4 pips; the best gain never decreases and a new best resets the breach counter; a smaller pull-back counts a breach tick, no pull-back resets it; the no-exit path records the price and counts the tick |
| PipManagers.PipProfitCheckExitOnTick | app/strategies/exit/managers/profit.py:43-138 | switched off, or a position missing a field, gives no decision and leaves the state unchanged; otherwise the pip profit rules hold on the tick's closeable price and the position's `pos_profit`, so a trailing pull-back of at least 0.4 pip below the best gain closes the position |
| TickExit.TickFor | app/strategies/exit_trade.py:164-169 | the given tick is used unless it is missing or names another symbol; without a tick, one exists exactly when the terminal has one for the symbol |
| TickExit.ClosingPrice | app/strategies/exit_trade.py:509-517 | the closeable price is the bid for a BUY and the ask for a SELL of the tick used; no tick reads as a missing price |
| TickExit.ProfitOf | app/strategies/exit_trade.py:212-214 | the position's own profit when it has one (a non-numeric one raises), otherwise the terminal's figure for the ticket when it has one |
| TickExit.Observe | app/strategies/exit_trade.py:154-174 | a position is skipped exactly when a field or the price is missing, fails exactly when float() refuses entry, volume or price, and otherwise is seen with its view and closeable price |
| TickExit.Adverse | app/strategies/exit_trade.py:298-302 | the adverse distance is never negative, and positive exactly when the price stands strictly against the entry |
| TickExit.CloseAll | app/strategies/exit_trade.py:393-409 | this engine's exit closes the full volume on the opposite side, keeping ticket, symbol and reason |
| TickExit.Counted | app/strategies/exit_trade.py:192-204 | a first observation starts at one tick; a known ticket counts one tick more |
| TickExit.Stop | app/strategies/exit_trade.py:207-329 | the stops are tried in the source's order (money, price, pips, early abort, reversal in profit); each fires exactly when its condition holds and no earlier one does, and none fires exactly when no condition holds |
| TickExit.Latched | app/strategies/exit_trade.py:331-341 | after the reversal check the previous price becomes the price; the favourable latch is on exactly when it was or the price is beyond entry + eps; the unfavourable counter grows by one exactly while never favourable |
| TickExit.ApplyRules | app/strategies/exit_trade.py:176-391 | outcome and new state are those of the rule function: first_tick_not_favorable on a first unfavourable observation, then the money, price, pip, early-abort and reversal stops in the source's order, each firing exactly when its condition holds and no earlier one does, then the trailing rules; every exit closes the full position on the opposite side |
| TickExit.RulesInOrder | app/strategies/exit_trade.py:176-391 | the rules run in order: a first-tick exit creates no state; otherwise the state is created or counted; a non-numeric profit with the money stop armed raises; else the first stop that fires closes the position; else the trailing rules decide on the counted state |
| TickExit.TrailingRules | app/strategies/exit_trade.py:331-391 | max_unfavorable_ticks exits exactly when the latched state has reached the limit while never favourable; failing that, buffer_breach exits exactly when, from the start tick on, the price is a buffer past the anchor with net profit; no exit exactly when neither holds; the anchor moves to the price exactly when it moves strictly beyond anchor + eps; the tick count is kept and the previous price becomes the price |
| TickExit.TrailingReasons | app/strategies/exit_trade.py:331-391 | the trailing stage never raises and closes the whole position only for max_unfavorable_ticks, at the configured limit once the stop condition holds, or for buffer_breach, from buffer_start_tick on, at or past the anchor by buffer_pips and beyond the entry by min_profit_pips |
| TickExit.TicketsOfStep | app/strategies/exit_trade.py:137-141 | one more position adds its ticket to the open set when it has one |
| TickExit.TicketsOfMembers | app/strategies/exit_trade.py:137-141 | the open set never holds None, holds the ticket of every position that has one, and nothing else |
| TickExit.EvaluatePosition | app/strategies/exit_trade.py:154-391 | outcome and new state are the evaluation function's: a skipped position gives no exit and a failed read raises, neither touching the state; a seen one runs the rules on its view and closeable price; every exit closes the evaluated position; a ticket with state keeps one |
| TickExit.EvaluateCloses | app/strategies/exit_trade.py:154-409 | every exit of an evaluation closes the full volume of the evaluated position on the opposite side |
| TickExit.VisitAllStops | app/strategies/exit_trade.py:137-148 | once a position's evaluation raises, the later positions change nothing |
| TickExit.VisitAllCloses | app/strategies/exit_trade.py:137-148 | every action of a pass over the positions closes one of them |
| TickExit.VisitAllStates | app/strategies/exit_trade.py:137-148 | a pass keeps every ticket's state and adds states only for tickets of the positions |
| TickExit.VisitAllRaises | app/strategies/exit_trade.py:137-148 | a pass raises only when some position was not skipped, that is, one with a ticket whose evaluation read the market |
| TickExit.TickExitEngine.constructor | app/strategies/exit_trade.py:111-120 | the engine starts with no per-ticket state |
| TickExit.TickExitEngine.VisitPosition | app/strategies/exit_trade.py:137-145 | outcome and new states are the visit function's: a position without a ticket is passed over without touching the state; otherwise the ticket's state becomes the evaluation's and only that ticket may be added; every exit closes that position |
| TickExit.TickExitEngine.OnTick | app/strategies/exit_trade.py:122-148 | no positions clears all state and returns nothing; otherwise the positions are evaluated in order: an exception ends the call at that position with the states built so far, and success returns the exits in position order with the states pruned to the open tickets; every action closes one of the positions; an exception comes only from a position that was not skipped |
| TickExit.TickExitEngine.VisitEach | app/strategies/exit_trade.py:137-145 | the loop over the positions produces exactly the pass: its actions, the states and whether it raised, and without a raise the tickets it saw are the positions' tickets |
| TickExit.TickExitEngine.Prune | app/strategies/exit_trade.py:421-424 | the state keeps exactly the tickets that are open, each unchanged |
| HybridExit.HtfAllowsProfitExit | app/exit_strategies/exit_trade.py:175-197 | profit exits are allowed with the filter off, with no bias row, or with a stale row; otherwise they are blocked exactly when M15 (in use) supports the position, or when M15 does not oppose it and M5 (in use) does not oppose it |
| HybridExit.LowerIdempotent | app/exit_strategies/exit_trade.py:169-171 | lower-casing stored labels a second time when they are read back changes nothing |
| HybridExit.HtfGateOfStatedLabels | app/exit_strategies/exit_trade.py:163-197 | whatever case the labels were stated in, an M15 and M5 that both oppose the position never block a profit exit, and a fresh M15 that supports it (M15 in use, filter on) always does |
| HybridExit.CooldownOncePerWindow | app/exit_strategies/exit_trade.py:270-277 | once the cooldown has let a ticket through at t1 and recorded it, the ticket is refused at every time before t1 + 2 s |
| HybridExit.HybridExitEngine.constructor | app/exit_strategies/exit_trade.py:112-133 | the engine starts with no state, no bias rows and no recorded exit times |
| HybridExit.HybridExitEngine.UpdateBias | app/exit_strategies/exit_trade.py:156-173 | an empty symbol changes nothing; otherwise only that symbol's row changes: given labels are stored lower-cased, labels not given keep their previous value, and the time is always refreshed to `asof` or the clock |
| HybridExit.HybridExitEngine.ShouldExit | app/exit_strategies/exit_trade.py:270-277 | true exactly when the cooldown has passed since the ticket's last recorded time (0 when none); a true answer records now for the ticket, a false one records nothing |
| HybridExit.HybridExitEngine.OnTick | app/exit_strategies/exit_trade.py:200-234 | no positions clears all state and returns nothing; otherwise the positions are visited in order and the exit times are the pass's: an exception ends the call with the states built so far, success returns the exits in position order and prunes the states to the open tickets (keeping those the cooldown skipped); every action closes one of the positions at volume × partial-close ratio, with a loss reason when profit exits on ticks are off; only `now` is ever recorded; the bias cache is untouched |
| HybridExit.HybridExitEngine.VisitEach | app/exit_strategies/exit_trade.py:207-232 | the loop over the positions produces exactly the pass: its actions, states, exit times and whether it raised; without a raise the tickets it saw are the positions' tickets; the bias is untouched |
| HybridExit.HybridExitEngine.VisitPosition | app/exit_strategies/exit_trade.py:207-232 | outcome, states and exit times are the visit function's: a position without a ticket is passed over; otherwise only that ticket's state and exit time may change; every exit closes that position, with a loss reason when profit exits on ticks are off |
| HybridExit.HybridExitEngine.EvaluateTicket | app/exit_strategies/exit_trade.py:214-232 | a ticket refused by the cooldown yields nothing and changes nothing; a ticket let through records `now` and gets the managers' outcome and new state, starting from its `setdefault` state; no other ticket's state changes; every exit closes the position |
| HybridExit.HybridExitEngine.RunManagers | app/exit_strategies/exit_trade.py:216-232 | the outcome and the ticket's new state are the managers' (the loss manager first; a loss exit short-circuits the profit manager, which runs only when profit exits on ticks are on); nothing else changes; every exit closes the position |
| HybridExit.HybridExitEngine.OnCandleClose | app/exit_strategies/exit_trade.py:236-267 | switched off, an empty symbol or a close price float() refuses gives no actions and changes nothing; no positions clears all state; with positions it raises exactly when some position on the symbol with a ticket is past its cooldown, at the first such one, whose exit time becomes `now` and whose state is created if missing; otherwise nothing changes; it never yields an action and never prunes |
| HybridExit.HybridExitEngine.FirstCandidate | app/exit_strategies/exit_trade.py:252-257 | the scan finds the first position on the symbol with a ticket whose cooldown has passed, and -1 means no position qualifies |
| HybridExit.HybridExitEngine.Prune | app/exit_strategies/exit_trade.py:340-343 | the state keeps exactly the open tickets, each unchanged |
| HybridExit.ManagersClose | app/exit_strategies/exit_trade.py:216-232 | every exit of the managers closes the position at volume × ratio, with a loss reason when profit exits on ticks are off |
| HybridExit.VisitAllStops | app/exit_strategies/exit_trade.py:200-234 | once a manager raises, the later positions change nothing |
| HybridExit.VisitAllCloses | app/exit_strategies/exit_trade.py:200-234 | every action of a pass closes one of the positions, with a loss reason when profit exits on ticks are off |
| HybridExit.VisitAllStates | app/exit_strategies/exit_trade.py:200-234 | a pass keeps every ticket's state and adds states only for tickets of the positions |
| HybridExit.VisitAllTimes | app/exit_strategies/exit_trade.py:200-234 | a pass records only `now` as a new exit time |
| Oco.PipsToPrice | app/services/oco_straddle.py:366-384 | the broker's non-zero pip when it reports one, otherwise the symbol's pip (from its info, or 0.01 for JPY and 0.0001 otherwise), times the pips |
| Oco.FallbackOffsetPositive | app/services/oco_straddle.py:376-384 | with neither a broker pip nor symbol info, a positive offset in pips is a positive price distance |
| Oco.MinStopDistancePrice | app/services/oco_straddle.py:348-364 | never negative, 0 without symbol info, and when positive it is max(stops level, freeze level) × point |
| Oco.OcoNormalizePrice | app/services/oco_straddle.py:386-394 | without symbol info the price is left as it is |
| Oco.GroupComment | app/services/oco_straddle.py:124-127 | the comment is `prefix:group_id` cut to at most 31 characters: a prefix of it, and all of it when it fits |
| Oco.ExpiryStamp | app/services/oco_straddle.py:120-134 | now + seconds for a positive expiry, otherwise 0 (never expires) |
| Oco.StraddlePrices | app/services/oco_straddle.py:115-116 | the buy stop is ask + offset and the sell stop bid − offset, so with a positive offset and ask ≥ bid the buy stop is above the ask, the sell stop below the bid, and buy > sell |
| Oco.EffectiveOffset | app/services/oco_straddle.py:107-113 | the offset is the requested one or the minimum stop distance, never below the requested one, and never below a positive minimum |
| Oco.OcoStraddleManager.constructor | app/services/oco_straddle.py:60-63 | the manager starts with no groups |
| Oco.OcoStraddleManager.PlaceStraddle | app/services/oco_straddle.py:69-164 | invalid inputs (empty symbol, volume ≤ 0, symbol not selectable, no tick, bid or ask ≤ 0, offset ≤ 0) send nothing and change nothing; a group is registered, under its id, exactly when both legs are placed, with the buy stop at ask + offset and the sell stop at bid − offset, the offset raised to the minimum stop distance, the expiry stamp and the cut comment; when the sell leg fails the placed buy leg is cancelled and nothing is registered |
| Oco.OcoStraddleManager.OnTick | app/services/oco_straddle.py:166-212 | a group stays, unchanged, exactly when it has not expired and both legs are pending; every other group is removed; the cancelled orders are exactly the still-pending legs of the removed groups |
| Oco.OcoStraddleManager.CancelGroup | app/services/oco_straddle.py:214-221 | false for an unknown id; otherwise the group is removed, its pending legs are cancelled, and the answer is true |
| Oco.Reconcile | app/services/oco_straddle.py:180-212 | a group is kept exactly when it has not expired and both legs are pending; a kept group cancels nothing, a removed one cancels its legs still pending |
| Oco.OneLegGoneCancelsOther | app/services/oco_straddle.py:190-212 | for an unexpired group, one leg gone cancels exactly the other leg and removes the group; both gone removes it with no cancel |
| Oco.NeverExpiringGroupKept | app/services/oco_straddle.py:181 | a group with expiry 0 is kept exactly as long as both its legs are pending |
| Orchestrator.ExtractTfCandles | app/services/trade_services.py:556-562 | a plain candle list is used as is; a timeframe map yields that timeframe's list, and a missing or non-list entry or an unusable snapshot yields no candles |
| Orchestrator.ClosedFlagPriority | app/services/trade_services.py:574-578 | the first of is_closed, closed, complete, is_complete present on the candle decides by its truthiness; a candle with none of them counts as closed |
| Orchestrator.LastClosedIndex | app/services/trade_services.py:568-570 | the index found is a closed dict candle with no closed dict candle after it; none is found only when no candle is a closed dict |
| Orchestrator.LastClosedCandle | app/services/trade_services.py:564-572 | no candle exactly for an empty list; otherwise the newest closed dict candle, or, when there is none, the second-last candle (the only one for a single candle) |
| Orchestrator.UtcEpoch | app/services/trade_services.py:601-602 | a naive datetime is read as UTC |
| Orchestrator.FromNumber | app/services/trade_services.py:605-608 | numbers up to 10,000,000,000 are epoch seconds, larger ones milliseconds |
| Orchestrator.MillisecondStampsAgree | app/services/trade_services.py:605-608 | a stamp in seconds and the same stamp in milliseconds give the same instant |
| Orchestrator.ReplaceZ | app/services/trade_services.py:614 | no Z survives the replacement, and text without a Z is unchanged |
| Orchestrator.FirstNotNone | app/services/trade_services.py:595-599 | the value picked is a non-None value of one of the keys, or None when all present keys hold None |
| Orchestrator.CandleTimeCases | app/services/trade_services.py:591-619 | no time for a missing, non-dict or empty candle or one without any time key; a naive datetime keeps its reading, integer and float stamps go through the seconds/milliseconds rule |
| Orchestrator.ResolveSymbol | app/services/trade_services.py:580-589 | the candle's truthy symbol wins, then a non-empty fallback, else none |
| Orchestrator.PyPrefix | app/services/trade_services.py:539 | Python slicing s[:n]: a prefix of s, of length n when 0 <= n <= len(s), and dropping -n items for a negative n |
| Orchestrator.NonEmpty | app/services/trade_services.py:539 | keeps exactly the non-empty symbols |
| Orchestrator.SymbolsToProcess | app/services/trade_services.py:531-540 | the collector's own symbol alone when it has one; otherwise only non-empty configured symbols, at most MAX_SYMBOLS of them |
| Orchestrator.Advance | app/services/trade_services.py:255-263 | the first closed time of a symbol only records the baseline; later a time fires exactly when strictly newer and then becomes the baseline; otherwise nothing changes |
| Orchestrator.AdvanceMonotone | app/services/trade_services.py:255-263 | baselines never move backwards or disappear, and the symbol's baseline is at least the time seen |
| Orchestrator.StepFacts | app/services/trade_services.py:237-264 | a step never moves a baseline back or drops one; a bar fires only for a symbol with a baseline, strictly newer than it, and becomes its new baseline |
| Orchestrator.RunPassFacts | app/services/trade_services.py:229-280 | over a pass each bar's entries precede its candle-close exits, baselines never move back, every bar worked on is strictly newer than its symbol's old baseline and not newer than its new one, and an aborted pass ends with the entries whose label raised |
| Orchestrator.RunPassOrder | app/services/trade_services.py:229-280 | over a pass each bar's entries precede its candle-close exits |
| Orchestrator.RunPassBaseline | app/services/trade_services.py:229-280 | baselines never move back, every bar worked on is not newer than its symbol's new baseline, and strictly newer than its old one |
| Orchestrator.RunPassAborts | app/services/trade_services.py:229-280 | a pass aborts only right after running the entries of a bar for which they raised |
| Orchestrator.RunPassStops | app/services/trade_services.py:229-280 | once a bar's entries raise, the later symbols change nothing: the pass ends there |
| Orchestrator.FiresOncePerBar | app/services/trade_services.py:255-274 | after a bar has been seen, the same or an older bar never fires |
| Orchestrator.CloseOf | app/services/trade_services.py:296-306 | the candle-close price is float() of the dict candle's close, and none when it is missing or refused |
| Orchestrator.BarEffects | app/services/trade_services.py:266-274 | a new bar always runs the entries first, and the candle-close exits second exactly when an exit engine is wired and the close is priced |
| Orchestrator.EntriesBeforeExitsAppend | app/services/trade_services.py:266-274 | appending a bar's effects keeps every candle-close exit right after the entries of the same symbol and bar |
| Orchestrator.Dicts | app/services/trade_services.py:371 | keeps exactly the dict signals |
| Orchestrator.Normalize | app/services/trade_services.py:368-378 | a list keeps its dicts, a dict becomes a one-element list, anything else is unsupported |
| Orchestrator.OptStr | app/services/trade_services.py:397-398 | a bias argument is absent exactly when the signal's value is None |
| Orchestrator.BiasCalls | app/services/trade_services.py:389-404 | every signal with a truthy symbol updates the bias with its m5 and m15 values at the bar's time, and only bias updates are made |
| Orchestrator.FinalLabel | app/services/trade_services.py:425 | a falsy final_signal reads as hold, a string is lower-cased, a truthy non-string raises |
| Orchestrator.SignalCalls | app/services/trade_services.py:424-469 | a signal makes calls only when actionable and pulled back; it is entered whenever an entry object with a callable method is wired; it is ordered on its own side exactly when no entry call succeeded for it and a broker with a callable place method is wired |
| Orchestrator.DirectFacts | app/services/trade_services.py:418-469 | on the direct path every call is one of some signal's; awaiting signals are parked by symbol; it raises exactly when some final_signal is a truthy non-string; without a raise every awaiting signal's symbol is pending |
| Orchestrator.DirectCallsDrawn | app/services/trade_services.py:418-469 | on the direct path every call is one that some signal makes |
| Orchestrator.DirectParked | app/services/trade_services.py:418-469 | the pending map keeps its old entries except those replaced by awaiting signals, which are parked by symbol |
| Orchestrator.DirectRaises | app/services/trade_services.py:418-469 | the direct path raises exactly when some signal's final_signal is a truthy non-string |
| Orchestrator.DirectParksAll | app/services/trade_services.py:418-469 | without a raise every actionable signal that was not a pull-back ends parked under its symbol |
| Orchestrator.DirectComplete | app/services/trade_services.py:424-469 | without a raise, every call each signal makes on its own is made on the direct path, and no signal's label raised |
| Orchestrator.LastParkedWins | app/services/trade_services.py:437-439 | without a raise, the last awaiting signal for a symbol is the one pending for it |
| Orchestrator.DirectStops | app/services/trade_services.py:424-425 | once a label raises, the later signals change nothing |
| Orchestrator.OnTickPlan | app/services/trade_services.py:171-221 | the exit actions are the engine's (none when it raised); the n-tick logic gets bid, else last, with the spread; an entry only follows a confirmed buy or sell; the broker route (no service, no entry object) raises exactly when the broker lacks place_market_order or the signal lacks a symbol, and otherwise places on the confirmed side |
| Orchestrator.SignalOrchestrator.constructor | app/services/trade_services.py:53-102 | not running, no baselines, the given pending entries |
| Orchestrator.SignalOrchestrator.Start | app/services/trade_services.py:108-119 | a running orchestrator ignores start; otherwise the collector and loop start once and it is running |
| Orchestrator.SignalOrchestrator.Stop | app/services/trade_services.py:121-124 | stops running and changes nothing else |
| Orchestrator.SignalOrchestrator.StepSymbol | app/services/trade_services.py:237-264 | a bar fires exactly when the baseline rule fires for its resolved symbol and closed time, and the baselines become the rule's new map |
| Orchestrator.SignalOrchestrator.RunOnce | app/services/trade_services.py:229-276 | the log, new baselines and abort are the pass function's over the symbols: a bar whose entries raise ends the pass with its baseline already advanced, skipping its candle-close exits and the remaining symbols; entries precede each bar's exits, baselines never move back, every bar worked on is strictly newer than its symbol's old baseline; the sleep is 1 s after an abort, 0.1 after work and the poll interval otherwise |
| Orchestrator.SignalOrchestrator.DispatchSignals | app/services/trade_services.py:369-433 | nothing happens for unsupported or empty output; every symbol updates the bias; with a trading service it alone receives all signals; otherwise, when an entry object or a broker is wired, the calls, pending entries and raise are exactly the direct path's; it raises exactly when the direct path runs and some final_signal is a truthy non-string |
| Orchestrator.SignalOrchestrator.DispatchDirect | app/services/trade_services.py:418-469 | calls, pending entries and raise are the direct path's fold over the signals (whose completeness DirectComplete and LastParkedWins state): every call enters or orders an actionable, pulled-back signal on its side; signals awaiting their pullback are parked by symbol; it raises exactly when some final_signal is a truthy non-string |
| SignalGeneration.StrategySymbol | app/services/helpers/signal_generation.py:138-146 | the last candle's truthy symbol, otherwise the first configured symbol |
| SignalGeneration.CandlesForIndicators | app/services/helpers/signal_generation.py:155-166 | the candles used are a prefix of the input, shorter exactly when the input is non-empty and the last candle is always dropped or is flagged open under closed-candle discipline, and then by one candle only |
| SignalGeneration.FilteringLeavesEnough | app/services/helpers/signal_generation.py:168-180 | with DROP_LAST_CANDLE_ALWAYS, exactly min_candles candles still meet the reduced minimum; otherwise exactly min_candles candles fall short only when the open last candle is dropped |
| SignalGeneration.BarOf | app/services/helpers/signal_generation.py:193-199 | a candle yields a bar exactly when it is a dict whose high, low and close all pass float() |
| SignalGeneration.Bars | app/services/helpers/signal_generation.py:193-199 | the bars line up one for one with the candles |
| SignalGeneration.TrueRange | app/services/helpers/signal_generation.py:210 | the true range is the largest of high-low and the two distances to the previous close, hence never negative |
| SignalGeneration.TrAt | app/services/helpers/signal_generation.py:206-211 | the true range of a bar against its predecessor is never negative |
| SignalGeneration.TrSumNonNegative | app/services/helpers/signal_generation.py:204-215 | a sum of true ranges is never negative |
| SignalGeneration.MeanTrueRange | app/services/helpers/signal_generation.py:213-215 | the mean of the last period true ranges is never negative |
| SignalGeneration.AtrSpec | app/services/helpers/signal_generation.py:182-215 | an ATR exists exactly when the period is positive, every candle parses and there are at least period+1 candles, and it is never negative |
| SignalGeneration.Atr | app/services/helpers/signal_generation.py:182-215 | the loop computes exactly the ATR specification |
| SignalGeneration.ConvertCandles | app/services/helpers/signal_generation.py:189-199 | conversion fails exactly when some candle does not parse, and otherwise gives the high, low and close columns of the bars |
| SignalGeneration.SumTrueRanges | app/services/helpers/signal_generation.py:204-211 | the loop sums exactly the true ranges from the start index to the end |
| SignalGeneration.MeanOfLast | app/services/helpers/signal_generation.py:204-215 | the sum of the last period true ranges over the columns, divided by the period, is the mean true range |
| SignalGeneration.AtrSpecNone | app/services/helpers/signal_generation.py:182-203 | an empty input, a non-positive period, a candle that does not convert or too few candles give no ATR |
| SignalGeneration.AtrSpecUnfold | app/services/helpers/signal_generation.py:182-215 | with a positive period and enough candles that all convert, the ATR is the mean true range |
| SignalGeneration.SpreadPoints | app/services/helpers/signal_generation.py:217-225 | spread_points is read first, spread only when it is None, through float() |
| SignalGeneration.EntryFilter | app/services/helpers/signal_generation.py:227-286 | hold passes as not applicable; fewer than two candles fail; a spread above the limit fails; otherwise the move and ATR gates decide; only buy or sell can fail |
| SignalGeneration.PassedEntryFilter | app/services/helpers/signal_generation.py:256-266 | a buy or sell that passes has two parsable closes moving in its direction and a spread within the limit |
| SignalGeneration.MoveGate | app/services/helpers/signal_generation.py:256-286 | passing needs a parsed close move in the signal's direction and, when the ATR is positive, a move of at least mult times the ATR; without a usable ATR a move in the right direction passes |
| SignalGeneration.AtrGate | app/services/helpers/signal_generation.py:268-286 | no or non-positive ATR passes as unavailable; otherwise passing is equivalent to the move reaching mult times the ATR |
| SignalGeneration.SmaStrength | app/services/helpers/signal_generation.py:324-329 | the SMA strength is 1 exactly when the SMA signal is directional, and 0 otherwise |
| SignalGeneration.Confidence | app/services/helpers/signal_generation.py:345-365 | the confidence is the mean of the SMA strength and the MACD-signal gap, never negative |
| SignalGeneration.StrongGenerate | app/services/helpers/signal_generation.py:292-420 | too few candles is an error; waiting exactly when there are enough candles but no or too few closed ones to compute on, and it reports the candles used; enough usable candles with usable indicators always decide, with the raw rule's label; a decision is buy exactly when SMA and MACD are bullish with enough confidence, sell symmetrically, and a failed entry filter turns it into hold |
| SignalGeneration.RsiNeverDecides | app/services/helpers/signal_generation.py:347-362 | the RSI value is informational: any two parsable RSI series give the same signal |
| SignalGeneration.LowerGet | app/services/helpers/signal_generation.py:455-469 | a lower-cased key lookup returns the value of a key with that text, and nothing when no key has it |
| SignalGeneration.TfCandles | app/services/helpers/signal_generation.py:459-469 | an integer key wins, then the timeframe's text key, then the m-prefixed key, else no candles; None reads as no candles |
| SignalGeneration.Blocking | app/services/helpers/signal_generation.py:499-516 | no block exactly when no timeframe signal is an error with a non-empty message or waiting for a closed candle |
| SignalGeneration.ClosesOf | app/services/helpers/signal_generation.py:547 | the closes are taken from the candles that have one |
| SignalGeneration.AnyBelow | app/services/helpers/signal_generation.py:551 | true exactly when some close is below the bound and every close before it compares; false exactly when every close is a number at or above it |
| SignalGeneration.Pullback | app/services/helpers/signal_generation.py:545-553 | fewer than 21 closes is no pullback; it completes exactly when the closes read, one of closes[-25:-20] is below the 20-close SMA and the last close is above it |
| SignalGeneration.SubSignal | app/services/helpers/signal_generation.py:475-489 | a timeframe without candles gets a hold stub without calling the strategy |
| SignalGeneration.MultiGenerate | app/services/helpers/signal_generation.py:453-543 | an error with a message or a waiting timeframe gives hold with its reason; otherwise buy exactly when bias raw, confirm raw and entry final are all buy and the pullback completed, sell symmetrically, where the pullback counts as completed exactly when the entry candles are non-empty and the pullback check says so; it raises only when a sub-strategy, the symbol fallback or the pullback raises |
| SignalGeneration.MissingTimeframeHolds | app/services/helpers/signal_generation.py:471-531 | a timeframe without candles makes the decision hold |
| SignalGeneration.StrongMultiRaisesOnlyInPullback | app/services/helpers/signal_generation.py:499-553 | over the strong strategy, the multi-timeframe gate can raise only inside the pullback check |
| SignalGeneration.ResetState | app/services/helpers/signal_generation.py:744-751 | reset clears pending, entry price, window and waiting, and keeps the buffered confirmation and the candle id |
| SignalGeneration.Slide | app/services/helpers/signal_generation.py:627-629 | the window appends the tick result and drops the oldest once it holds more than n |
| SignalGeneration.TickStep | app/services/helpers/signal_generation.py:597-667 | a tick changes nothing unless a buy or sell is pending; it never changes the candle id, and raises only when the pending entry price does not parse |
| SignalGeneration.TickStepKeepsWindowBounded | app/services/helpers/signal_generation.py:627-629 | a tick never leaves a full window behind: the window stays shorter than n, or is empty |
| SignalGeneration.MixedWindowClears | app/services/helpers/signal_generation.py:662-667 | a full window of mixed results is cleared and the wait goes on |
| SignalGeneration.NFavorableTicksConfirm | app/services/helpers/signal_generation.py:636-649 | n favourable ticks from a fresh wait confirm the pending signal and end the wait |
| SignalGeneration.ConfirmAfter | app/services/helpers/signal_generation.py:636-649 | from k favourable results, n-k more favourable ticks confirm the pending signal |
| SignalGeneration.GenerateStep | app/services/helpers/signal_generation.py:669-737 | a buffered confirmation is returned once and cleared; otherwise the result is a hold |
| SignalGeneration.ConfirmationHandedOutOnce | app/services/helpers/signal_generation.py:680-684 | after handing out a confirmation, the next call returns hold |
| SignalGeneration.NewSignalStartsPending | app/services/helpers/signal_generation.py:694-718 | a buy or sell on a new candle starts a fresh wait with the candle's close as entry price and records the candle id |
| SignalGeneration.NewCandleResets | app/services/helpers/signal_generation.py:694-701 | a non-directional signal on a new candle resets the wait and records the candle id |
| SignalGeneration.TakeConfirmed | app/services/helpers/signal_generation.py:739-742 | the buffered confirmation is returned and the buffer emptied |
| SignalGeneration.NTickConfirmation.constructor | app/services/helpers/signal_generation.py:564-595 | nothing pending, not waiting, no confirmation |
| SignalGeneration.NTickConfirmation.Reset | app/services/helpers/signal_generation.py:744-751 | the state becomes the reset state |
| SignalGeneration.NTickConfirmation.OnNewTick | app/services/helpers/signal_generation.py:597-667 | the new state is the tick step's, unchanged when it raises |
| SignalGeneration.NTickConfirmation.DecideWindow | app/services/helpers/signal_generation.py:636-667 | a full favourable window confirms the pending side, a full unfavourable one the opposite side, a full mixed one is cleared |
| SignalGeneration.NTickConfirmation.GenerateSignal | app/services/helpers/signal_generation.py:669-737 | result and new state are the generate step's, unchanged when it raises |
| SignalGeneration.NTickConfirmation.GetConfirmedSignal | app/services/helpers/signal_generation.py:739-742 | returns the buffered confirmation and empties the buffer |
| NTickMovement.Confirmation | app/signals/strategies/ntick_confirmed_signal_strategy.py:88-93 | the confirmation carries the pending side and the confirming price, and keeps every other field of the last base signal |
| NTickMovement.Settle | app/signals/strategies/ntick_confirmed_signal_strategy.py:172-179 | the core state is untouched; in the corrected wrapper an empty run drops the reference price, and as written nothing changes |
| NTickMovement.MoveStep | app/signals/strategies/ntick_confirmed_signal_strategy.py:44-101 | nothing happens unless a buy or sell is pending; it raises exactly when there is no numeric reference or entry price and the spread gate lets the tick through; a move of at least min_pip_move in the pending direction extends the run and becomes the reference, and the n-th one confirms and resets; any other tick clears the run |
| NTickMovement.GenerateMove | app/signals/strategies/ntick_confirmed_signal_strategy.py:103-165 | candle handling is the helper wrapper's, raising exactly when it does; as written the reference price is left untouched |
| NTickMovement.MoveStepKeepsResultsInvariant | app/signals/strategies/ntick_confirmed_signal_strategy.py:76-101 | the run only ever holds favourable results, and for n of at least 1 fewer than n of them |
| NTickMovement.NonPositiveWindowNeverConfirms | app/signals/strategies/ntick_confirmed_signal_strategy.py:83 | with n of zero or less no tick can ever confirm |
| NTickMovement.NFavorableMovesConfirm | app/signals/strategies/ntick_confirmed_signal_strategy.py:76-94 | n ticks each moving enough from the previous one confirm the pending side at the last tick's price |
| NTickMovement.ConfirmMoves | app/signals/strategies/ntick_confirmed_signal_strategy.py:76-94 | from k favourable moves, n-k more confirm the pending side at the last tick's price |
| NTickMovement.UnfavorableTickRestarts | app/signals/strategies/ntick_confirmed_signal_strategy.py:95-101 | a tick that does not move enough clears the run and measures the next one from the entry price again |
| NTickMovement.UnfavorableTicksNeverConfirm | app/signals/strategies/ntick_confirmed_signal_strategy.py:95-101 | any run of ticks that do not move away from the entry confirms nothing, never the opposite side, and keeps waiting with an empty run |
| NTickMovement.StaleScenarioFirstCandle | app/signals/strategies/ntick_confirmed_signal_strategy.py:131-146 | a buy on the first candle starts a wait at its close |
| NTickMovement.StaleScenarioFirstTick | app/signals/strategies/ntick_confirmed_signal_strategy.py:76-82 | a favourable tick becomes the reference price |
| NTickMovement.StaleScenarioSecondCandle | app/signals/strategies/ntick_confirmed_signal_strategy.py:122-146 | a sell on the next candle starts a new wait, with the old reference price still set |
| NTickMovement.StaleScenarioUnmovedTick | app/signals/strategies/ntick_confirmed_signal_strategy.py:67-77 | a tick at the new entry price counts as favourable for the sell, measured from the stale reference |
| NTickMovement.StaleReferenceCountsUnmovedTick | app/signals/strategies/ntick_confirmed_signal_strategy.py:67-77 | as written, after a reset a tick that has not moved from the new entry price is counted as a favourable move |
| NTickMovement.CorrectedMoveKeepsFreshReference | app/signals/strategies/ntick_confirmed_signal_strategy.py:44-101 | with the reset clearing the reference, after any tick, a state without a run has no reference price or the entry price as reference |
| NTickMovement.CorrectedGenerateKeepsFreshReference | app/signals/strategies/ntick_confirmed_signal_strategy.py:103-165 | with the reset clearing the reference, after any candle, a state without a run has no reference price or the entry price as reference |
| NTickMovement.FreshRunStartsAtEntry | app/signals/strategies/ntick_confirmed_signal_strategy.py:67-70 | with a fresh reference, a new run is measured from the pending entry price |
| NTickMovement.NTickMovementConfirmation.constructor | app/signals/strategies/ntick_confirmed_signal_strategy.py:11-42 | nothing pending, not waiting, no confirmation, no reference price |
| NTickMovement.NTickMovementConfirmation.Reset | app/signals/strategies/ntick_confirmed_signal_strategy.py:172-179 | the core state is reset and the reference price kept |
| NTickMovement.NTickMovementConfirmation.OnNewTick | app/signals/strategies/ntick_confirmed_signal_strategy.py:44-101 | state and raising are exactly the movement step's |
| NTickMovement.NTickMovementConfirmation.GenerateSignal | app/signals/strategies/ntick_confirmed_signal_strategy.py:103-165 | result and new state are the candle step's, unchanged when it raises |
| NTickMovement.NTickMovementConfirmation.GetConfirmedSignal | app/signals/strategies/ntick_confirmed_signal_strategy.py:167-170 | returns the buffered confirmation and empties the buffer |
| VoteStrategy.MakeVoteConfig | app/signals/strategies/strong_signal_strategy.py:12-24 | min_candles of 0 or None becomes 1, any other value is kept, and the threshold is stored as given |
| VoteStrategy.Results | app/signals/strategies/strong_signal_strategy.py:38-44 | each indicator's answer is recorded, and None for one that raised |
| VoteStrategy.VotesBounded | app/signals/strategies/strong_signal_strategy.py:48-50 | buy and sell votes together never exceed the number of indicators |
| VoteStrategy.VoteConfidence | app/signals/strategies/strong_signal_strategy.py:50-52 | the confidence is the share of indicators that voted, between 0 and 1 |
| VoteStrategy.Decide | app/signals/strategies/strong_signal_strategy.py:53-57 | buy exactly when buy votes outnumber sell votes and the confidence reaches the threshold; sell symmetrically |
| VoteStrategy.VoteSymbol | app/signals/strategies/base_signal_strategy.py:10-18 | the last candle's truthy symbol, otherwise the first configured symbol, and none without a config |
| VoteStrategy.VoteGenerate | app/signals/strategies/strong_signal_strategy.py:26-71 | it raises exactly when no symbol can be resolved; too few candles is an error; a resolved symbol with enough candles always decides, with the vote's label; final equals raw and both follow the vote with its confidence |
| VoteStrategy.Mirror | app/signals/strategies/strong_signal_strategy.py:48-49 | mirroring swaps buy and sell and leaves every other answer alone |
| VoteStrategy.MirrorAll | app/signals/strategies/strong_signal_strategy.py:48-49 | every answer is mirrored in place |
| VoteStrategy.MirrorSwapsVotes | app/signals/strategies/strong_signal_strategy.py:48-49 | mirroring the answers swaps the buy and sell counts |
| VoteStrategy.MirroredVoteMirrorsDecision | app/signals/strategies/strong_signal_strategy.py:48-57 | mirrored answers keep the confidence and swap the decision |
| VoteStrategy.AbstentionsCastNoVotes | app/signals/strategies/strong_signal_strategy.py:48-49 | answers that are neither buy nor sell cast no vote |
| VoteStrategy.AllIndicatorsRaisingHolds | app/signals/strategies/strong_signal_strategy.py:38-57 | when every indicator raises, the strategy holds with confidence 0 |
| VoteStrategy.TieHolds | app/signals/strategies/strong_signal_strategy.py:53-57 | a tie never decides |
| VoteStrategy.VoteMultiRaisesOnlyInPullback | app/signals/strategies/multi_timeframe.py:30-130 | over the vote strategy with a configured symbol, the multi-timeframe gate can raise only inside the pullback check |
| StrongRules.HelperRule | app/services/helpers/strong_signal.py:56-155 | too few candles is an error; a None SMA label is an error; with all indicators answering it decides exactly when MACD and RSI are usable, buy when SMA and MACD are bullish with enough confidence and sell symmetrically, with the mean-strength confidence |
| StrongRules.HelperRuleIgnoresRsi | app/services/helpers/strong_signal.py:93-108 | the RSI value never changes the decision |
| StrongRules.AgreementSufficesAtHalf | app/services/helpers/strong_signal.py:75-119 | with a threshold of at most 0.5, a buy SMA and a MACD line above its signal line always buy |
| StrongRules.OlderRule | app/strategies/strong_signal.py:14-101 | fewer than 200 candles is an error; a falsy SMA label is an error; a MACD failure exactly when both earlier guards pass and a MACD line is empty; passing every guard (readable closes, comparable RSI, non-empty MACD lines) always decides, with the raw rule and its confidence; every other failure is an unexpected-error dictionary |
| StrongRules.OlderAndHelperAgree | app/strategies/strong_signal.py:66-97 | when both rules decide, they decide the same |
| StrongRules.OlderDecisionImpliesHelperDecision | app/strategies/strong_signal.py:14-97 | with a helper minimum of at most 200, whenever the older rule decides the helper rule decides the same |
| StrongRules.ComparableConverts | app/strategies/strong_signal.py:58-65 | an RSI value that the older rule can compare also passes float() in the helper rule |
| StrongRules.FalsySmaSplitsTheRules | app/strategies/strong_signal.py:23-26 | an empty SMA label is an error for the older rule but a hold decision for the helper rule |
| TradeExecution.RouteSignal | app/services/helpers/trade_execution.py:30-43 | a list is executed as is, a dict's signals list when it has one, otherwise the dict alone; anything else is ignored |
| TradeExecution.FirstTruthy | app/services/helpers/trade_execution.py:114-120 | the first truthy value of the chain, or the default when none is truthy |
| TradeExecution.ExtractDirection | app/services/helpers/trade_execution.py:102-131 | a direction field saying buy or sell (trimmed, any case) decides; otherwise the first truthy of final_signal, signal, side, action decides by the same words, and anything else gives no direction |
| TradeExecution.HoldHasNoDirection | app/services/helpers/trade_execution.py:123-124 | a hold signal has no direction |
| TradeExecution.FirstConvertible | app/services/helpers/trade_execution.py:148-177 | the lot is the first non-None candidate that float() accepts, none when there is none |
| TradeExecution.Answers | app/services/helpers/trade_execution.py:156-168 | a risk-manager method that raised counts as no answer |
| TradeExecution.ExtractLot | app/services/helpers/trade_execution.py:133-179 | an explicit lot is used through float() (a refused one gives no lot); otherwise a lot is always found, 0.01 when neither the risk manager nor the configuration gives a usable one |
| TradeExecution.DefaultLotIsFallback | app/services/helpers/trade_execution.py:170-179 | with no lot in the signal, no risk-manager answer and no configured lot, the lot is 0.01 |
| TradeExecution.Plan | app/services/helpers/trade_execution.py:53-97 | an order is placed only for a dict signal with a truthy symbol and a direction, on that side and with the extracted lot; malformed or directionless signals are skipped; only the SL/TP calculation can abort |
| TradeExecution.PlaceWithStops | app/services/helpers/trade_execution.py:73-97 | the order keeps the signal's symbol, side and lot; it is never skipped, and it aborts only through the SL/TP calculation |
| TradeExecution.ExecuteSpec | app/services/helpers/trade_execution.py:45-100 | never more orders than signals |
| TradeExecution.Extend | app/services/helpers/trade_execution.py:91-97 | an order is appended exactly when the signal places one, and the run stops exactly on an abort |
| TradeExecution.ExecuteSpecStep | app/services/helpers/trade_execution.py:53-97 | each signal extends the orders of the signals before it |
| TradeExecution.AbortIsFinal | app/services/helpers/trade_execution.py:77-86 | once the SL/TP calculation raises, no later signal is executed |
| TradeExecution.PlacementsComeFromSignals | app/services/helpers/trade_execution.py:53-97 | every order placed is the plan of one of the signals |
| TradeExecution.NoDirectionNoOrders | app/services/helpers/trade_execution.py:54-65 | signals without a direction place no orders |
| TradeExecution.ExitGate | app/services/helpers/trade_execution.py:185-203 | an exit is sent only for a ticket, a symbol and a positive volume, and not within two seconds of the last attempt on that ticket, whose time it then records; a debounced or rejected exit records nothing; it raises exactly when a truthy volume is refused by float() |
| TradeExecution.SecondAttemptDebounced | app/services/helpers/trade_execution.py:198-203 | a second exit of the same ticket within two seconds is debounced |
| TradeExecution.AttemptAfterWindowSent | app/services/helpers/trade_execution.py:198-203 | an exit of the same ticket two seconds or more later is sent again |
| TradeExecution.TradeExecutor.constructor | app/services/helpers/trade_execution.py:18-24 | no orders and no exit attempts yet |
| TradeExecution.TradeExecutor.ExecuteSignals | app/services/helpers/trade_execution.py:45-100 | the broker receives exactly the orders of the execution plan, and the exit attempts are untouched |
| TradeExecution.TradeExecutor.ProcessSignal | app/services/helpers/trade_execution.py:30-43 | a routable payload is executed as the plan says, anything else places nothing |
| TradeExecution.TradeExecutor.ExecuteExit | app/services/helpers/trade_execution.py:185-203 | the outcome and the new attempt times are the exit gate's, and no order is placed |
| TradeExecution.KeepCommentChars | app/services/helpers/trade_execution.py:292-293 | only letters, digits, space, underscore, colon, hyphen and dot remain, and text of those alone is kept |
| TradeExecution.SliceTo | app/services/helpers/trade_execution.py:297 | Python slicing s[:n] |
| TradeExecution.SafeComment | app/services/helpers/trade_execution.py:287-297 | the comment has only safe characters and at most max_len of them, is EXIT when nothing survives, and otherwise is the stripped safe text cut to max_len |
| TradeExecution.StripKeepsChars | app/services/helpers/trade_execution.py:294 | stripping keeps only characters of the text |
| TradeExecution.SafeCommentFixesSafeText | app/services/helpers/trade_execution.py:287-297 | a safe, trimmed comment within the limit is left unchanged |
| TradeExecution.StripUnchanged | app/services/helpers/trade_execution.py:294 | text without surrounding blanks is unchanged by strip |
| Entry.Limits | app/strategies/enter_trade.py:132-138 | volume limits exist exactly when the symbol is known, and are its minimum and maximum volume |
| Entry.PositiveLotWithinLimits | app/strategies/enter_trade.py:132-140 | a lot that is kept (positive) belongs to a known symbol and lies within its volume limits |
| Entry.DynamicSlTp | app/strategies/enter_trade.py:201-208 | the SL in pips is the price distance over the pip size (the distance itself when the pip size is 0), and the TP is ten times the SL |
| Entry.ClampStop | app/strategies/enter_trade.py:151-165 | a stop at least the minimum distance away is kept; a closer one moves to exactly the minimum distance on its side |
| Entry.Scanned | app/strategies/enter_trade.py:51 | the scanned symbols are the first MAX_SYMBOLS configured ones |
| Entry.FetchSpec | app/strategies/enter_trade.py:58-87 | a symbol is scanned exactly when every timeframe has at least the minimum number of candles, keyed by its timeframe |
| Entry.FetchTimeframes | app/strategies/enter_trade.py:58-87 | the fetch loop gives exactly the fetch specification |
| Entry.NoneStaysNone | app/strategies/enter_trade.py:77-82 | one short timeframe drops the symbol's candles altogether |
| Entry.FetchedLookup | app/strategies/enter_trade.py:84-90 | each fetched timeframe's candles are what the multi-timeframe strategy reads for it |
| Entry.ScanFetched | app/strategies/enter_trade.py:86-121 | no candles, no candidate; a candidate belongs to the symbol, comes from a decided multi-timeframe buy or sell with a completed pullback, agrees on bias, confirmation and entry, and has a TP of ten times its SL |
| Entry.ScanSymbol | app/strategies/enter_trade.py:58-121 | a candidate belongs to its symbol and agrees on bias, confirmation and entry |
| Entry.ShortTimeframeSkipsSymbol | app/strategies/enter_trade.py:77-87 | a symbol with a short timeframe yields no candidate |
| Entry.ScanCandidatesAgree | app/strategies/enter_trade.py:58-121 | the scan yields at most one candidate per symbol scanned, each from a scanned symbol and agreeing on all three timeframes |
| Entry.ExtendScanned | app/strategies/enter_trade.py:108-121 | appending a scanned symbol's candidate keeps every candidate agreeing and from the scanned symbols |
| Entry.SizeOne | app/strategies/enter_trade.py:131-182 | a non-positive lot drops the candidate; a non-numeric price raises; otherwise the order keeps the candidate's symbol, side, price and context, with that lot and sound stops |
| Entry.CandidateSymbols | app/strategies/enter_trade.py:123 | the symbols of the candidates, in order |
| Entry.SizedOrdersSound | app/strategies/enter_trade.py:128-182 | sized orders are sound, come from the candidates' symbols, agree on all three timeframes and keep symbols unique |
| Entry.GenerateSpec | app/strategies/enter_trade.py:39-49 | reaching the daily target generates no orders |
| Entry.GeneratedOrdersSound | app/strategies/enter_trade.py:39-185 | every generated order has a positive lot within limits, stops at least the minimum distance away, a scanned symbol, agreeing timeframes, and no symbol appears twice |
| Entry.ScanComplete | app/strategies/enter_trade.py:58-121 | a scan that succeeds scanned every symbol without a raise and holds each symbol's candidate |
| Entry.SizedOrdersComplete | app/strategies/enter_trade.py:128-182 | a sizing that succeeds sized every candidate without a raise and holds each kept order |
| Entry.SizedOrdersUnique | app/strategies/enter_trade.py:128-182 | sizing one more candidate with a fresh symbol keeps the orders' symbols unique |
| Entry.ScanSpecIsBatch | app/strategies/enter_trade.py:58-121 | the scan is the raise-propagating batch over the symbols, each scanned on its own |
| Entry.SizeSpecIsBatch | app/strategies/enter_trade.py:128-182 | the sizing is the raise-propagating batch over the candidates, each sized on its own |
| Entry.GeneratedOrdersComplete | app/strategies/enter_trade.py:39-185 | below the daily target, the last candidate of each symbol, sized with the risk shared among the unique candidates, is never lost: when its lot is positive it is among the generated orders |
| Entry.UniqueCandidatesScanned | app/strategies/enter_trade.py:123 | de-duplicating by symbol keeps candidates from the scanned symbols, agreeing, and unique |
| Entry.SizedOrdersScanned | app/strategies/enter_trade.py:128-182 | unique candidates size into sound, unique, agreeing orders from the scanned symbols |
| Entry.EntryScanner.constructor | app/strategies/enter_trade.py:15-34 | nothing scanned yet |
| Entry.EntryScanner.GenerateSignals | app/strategies/enter_trade.py:39-185 | the orders are the generation specification's, and the scanned symbols are recorded unless the daily target stops the scan |
| Entry.ScanSymbols | app/strategies/enter_trade.py:58-121 | the scan loop gives exactly the scan specification |
| Entry.SizeCandidates | app/strategies/enter_trade.py:131-182 | the sizing loop gives exactly the sizing specification |
| Entry.ScanSpecStep | app/strategies/enter_trade.py:58-121 | each scanned symbol extends the candidates of the symbols before it |
| Entry.RaisedStaysRaised | app/strategies/enter_trade.py:58-121 | an exception while scanning one symbol ends the whole scan |
| Entry.SizingRaisedStaysRaised | app/strategies/enter_trade.py:131-182 | an exception while sizing one candidate ends the whole sizing |
| Entry.EnterTrade | app/strategies/enter/enter_trade.py:22-83 | raises exactly when building the request raises; a signal missing a field or with no positive lot places nothing; a request is handed to the trade executor as one signal dict, and the result is the executor's placements: at most one, with the request's symbol and lot |
| Entry.TradeSignal | app/strategies/enter/enter_trade.py:22-76 | a signal missing any of symbol, direction, price, sl_pips, tp_pips gives no request; a request keeps the signal's fields with a positive lot and stops at least the minimum distance away; a well-formed numeric signal never raises |
| Entry.ClampedStopsNotForwarded | app/services/helpers/trade_execution.py:71-97 | the executor recomputes SL/TP from the pips with the broker's calculator, so the order placed for a request carries the calculator's stops, not the request's clamped ones |
| Entry.NumberConverts | app/strategies/enter/enter_trade.py:38-44 | a numeric field passes float() unchanged |
| Entry.EntryHelperAgreesWithScanner | app/strategies/enter/enter_trade.py:22-83 | the entry helper and the scanner size the same candidate alike: both raise or skip together, and otherwise agree on lot, SL and TP |
| Breakout.Column | app/strategies/breakout_strategy.py:126-127 | reading a column succeeds exactly when every candle is a dict with that key, and gives their values in order |
| Breakout.MaxOf | app/strategies/breakout_strategy.py:126 | the maximum is one of the values and no value exceeds it |
| Breakout.MinOf | app/strategies/breakout_strategy.py:127 | the minimum is one of the values and no value is below it |
| Breakout.Extreme | app/strategies/breakout_strategy.py:126-127 | max()/min() raise exactly on no values or several values that are not all numbers; otherwise the result is one of the values and the extreme among numbers |
| Breakout.OpeningRange | app/strategies/breakout_strategy.py:123-128 | a range exists only when the first period candles are non-empty dicts with high and low |
| Breakout.CheckBreakout | app/strategies/breakout_strategy.py:114-121 | BUY exactly when the price is above the range high plus the buffer; SELL only below the range low minus the buffer; otherwise the price lies within the buffered range |
| Breakout.BreakoutMonotone | app/strategies/breakout_strategy.py:114-121 | a higher price that broke out upwards still does; a lower price than a downward break still breaks down |
| Breakout.SingleCandleRange | app/strategies/breakout_strategy.py:123-128 | with the configured one-candle period, the range is the first candle's high and low |
| Breakout.RangeSpansOpening | app/strategies/breakout_strategy.py:123-128 | every opening candle lies within the range |
| Breakout.CanTradeNow | app/strategies/breakout_strategy.py:91-99 | trading is allowed exactly below the daily target and inside the session window |
| Breakout.ScanSymbolAsWritten | app/strategies/breakout_strategy.py:25-37 | as written, a symbol with a tick raises in the candle fetch, and one without is skipped |
| Breakout.ScanSymbol | app/strategies/breakout_strategy.py:25-47 | without a tick the symbol is skipped; a candidate carries the symbol, its ask price and the side its breakout gives |
| Breakout.AsWrittenScanRaisesOnAnyTick | app/strategies/breakout_strategy.py:25-37 | as written, the scan raises exactly when some scanned symbol has a tick, and otherwise finds nothing |
| Breakout.AnyTickRaises | app/strategies/breakout_strategy.py:25-37 | one symbol with a tick is enough to make the scan raise |
| Breakout.ScanCandidatesBreakOut | app/strategies/breakout_strategy.py:25-47 | every candidate comes from a scanned symbol, at its ask price, and broke out on its side |
| Breakout.SizeOne | app/strategies/breakout_strategy.py:60-86 | a non-positive lot drops the candidate; otherwise the order keeps symbol, side and price, with a lot within the volume limits and the broker's SL/TP prices from pips |
| Breakout.SizeSpec | app/strategies/breakout_strategy.py:60-86 | never more orders than candidates |
| Breakout.CandidateSymbols | app/strategies/breakout_strategy.py:50 | the symbols of the candidates, in order |
| Breakout.SizedOrdersBreakOut | app/strategies/breakout_strategy.py:60-86 | every sized order comes from a candidate that broke out |
| Breakout.SizedOrdersUnique | app/strategies/breakout_strategy.py:50-86 | unique candidate symbols give unique order symbols |
| Breakout.SizedOrdersFromCandidates | app/strategies/breakout_strategy.py:50-86 | sized orders come from breaking-out candidates and keep symbols unique |
| Breakout.GenerateSpec | app/strategies/breakout_strategy.py:14-89 | as written, generating raises exactly when a scanned symbol has a tick, and otherwise yields no orders |
| Breakout.GeneratedOrdersBreakOut | app/strategies/breakout_strategy.py:14-89 | with the candle fetch corrected, every order is for a scanned symbol at its ask price, broke out on its side, has a positive lot within limits, and no symbol appears twice |
| Breakout.ScanComplete | app/strategies/breakout_strategy.py:25-47 | a scan that succeeds, as written or corrected, holds each symbol's candidate |
| Breakout.GeneratedOrdersComplete | app/strategies/breakout_strategy.py:14-89 | with the candle fetch corrected, the last candidate of each symbol whose lot is positive is among the generated orders |
| Breakout.BreakoutScanner.constructor | app/strategies/breakout_strategy.py:5-9 | nothing scanned yet |
| Breakout.BreakoutScanner.GenerateSignals | app/strategies/breakout_strategy.py:14-89 | the orders are the corrected generation specification's, and the scanned symbols are always recorded |
| Breakout.ScanSymbols | app/strategies/breakout_strategy.py:25-47 | the scan loop gives exactly the corrected scan specification |
| Breakout.SizeCandidates | app/strategies/breakout_strategy.py:60-86 | the sizing loop gives exactly the sizing specification |
| Breakout.RaisedStaysRaised | app/strategies/breakout_strategy.py:25-47 | an exception while scanning one symbol ends the whole scan |
| Risk.LotSize | app/risk/risk_manager.py:17-37 | no symbol info gives 0; otherwise the lot is the risk amount over the SL distance (0 for a zero distance) clamped into the volume limits |
| Risk.Clamp | app/risk/risk_manager.py:35 | the clamped lot is at least the minimum volume, at most the maximum when the limits are ordered, and unchanged inside them |
| Risk.ClampMonotone | app/risk/risk_manager.py:35 | clamping preserves order |
| Risk.LotSizeMonotoneInBalance | app/risk/risk_manager.py:26-35 | a larger balance never gives a smaller lot |
| Risk.RiskManager.constructor | app/risk/risk_manager.py:10-12 | no daily risk used |
| Risk.RiskManager.ResetDailyRisk | app/risk/risk_manager.py:14-15 | the daily risk used is back to 0 |
| Backtest.SliceBound | app/utils/backtest_signals.py:8 | a slice bound is clamped into the sequence, and a bound inside it is kept |
| Backtest.Slice | app/utils/backtest_signals.py:8 | Python slicing agrees with an ordinary slice for in-range bounds |
| Backtest.At | app/utils/backtest_signals.py:13 | Python indexing gives the element for an in-range index and raises exactly outside -len..len-1 |
| Backtest.RoundedConfidence | app/utils/backtest_signals.py:15 | a missing confidence is 0; a float is rounded to two decimals, within 0.005; round() raises exactly on a non-number |
| Backtest.RowAt | app/utils/backtest_signals.py:8-17 | a row records its own index, and for an in-range candle it is built exactly when the candle has a time and the confidence can be rounded |
| Backtest.RowsAreEveryIndex | app/utils/backtest_signals.py:7-17 | a completed run has one row per index from min_window on, each the row of that index |
| Backtest.RunCompletesIffEveryRow | app/utils/backtest_signals.py:7-17 | the run completes exactly when every index's row can be built |
| Backtest.BacktestRows | app/utils/backtest_signals.py:1-18 | a completed backtest has one row per candle after the first min_window, each from the strategy on the window just before it |
| Backtest.RaisedStaysRaised | app/utils/backtest_signals.py:7-17 | once a row raises, the run raises |
| Backtest.BacktestSignals | app/utils/backtest_signals.py:1-18 | the loop gives exactly the backtest specification |
| Backtest.RaisedAfter | app/utils/backtest_signals.py:7-17 | a row that raises ends every longer run with an exception |
| SignalBatch.IndexOfKey | app/strategies/enter_trade.py:123 | the position found holds the key, and -1 means no entry has it |
| SignalBatch.InsertFacts | app/strategies/enter_trade.py:123 | inserting into a dict keeps keys unique, contains the new signal, and keeps every entry of another key |
| SignalBatch.DedupLastWins | app/strategies/breakout_strategy.py:50 | de-duplication keeps keys unique, never grows the batch, keeps only given signals, and keeps the last signal of every key |
| SignalBatch.LaterSignalReplacesEarlier | app/strategies/breakout_strategy.py:50 | of two signals for the same symbol, the later one is kept |
| SignalBatch.FilterMap | app/strategies/breakout_strategy.py:60-86 | the sized batch is never larger than the batch |
| SignalBatch.FilterMapStep | app/strategies/breakout_strategy.py:60-86 | each candidate extends the sized batch of the candidates before it, when it sizes |
| SignalBatch.FilterMapOrigin | app/strategies/breakout_strategy.py:60-86 | every sized entry comes from a candidate |
| SignalBatch.FilterMapComplete | app/strategies/breakout_strategy.py:60-86 | every candidate that sizes contributes its order to the sized batch |
| SignalBatch.TryFilterMapComplete | app/strategies/enter_trade.py:58-182 | a batch that does not raise ran every element without a raise and holds every value an element kept |
| SignalBatch.FilterMapKeepsKeysUnique | app/strategies/breakout_strategy.py:60-86 | sizing that keeps each candidate's symbol keeps symbols unique |
| SignalBatch.RiskShare | app/strategies/breakout_strategy.py:57 | the shares of the risk percentage add back up to it |
| SignalBatch.LargerBatchSmallerLots | app/strategies/breakout_strategy.py:57-67 | a larger batch never gives a larger lot per signal |
| Candles.IntOr | app/data/candles.py:31-33 | a missing or zero setting falls back to its default, any other value is kept |
| Candles.TimeframeSeconds | app/data/candles.py:63-72 | M1/M5/M15/M30 last their code in minutes, H1 an hour, any other code the fallback |
| Candles.BarSeconds | app/data/candles.py:196-204 | the multi-timeframe collector's bar length is at least a minute, unknown codes counting as 60 seconds |
| Candles.AlignNextDue | app/data/candles.py:206-209 | the next due time lies in the future, at most one bar and a second away, one second past a bar boundary |
| Candles.CandleTimeToEpoch | app/data/candles.py:211-239 | None has no epoch, numbers truncate, an aware datetime converts to UTC and a naive one is read as UTC, strings and other objects have none |
| Candles.SameInstantSameEpoch | app/data/candles.py:215-222 | one instant written with any UTC offset, or naive in UTC, gives one epoch |
| Candles.StrLessIrreflexive | app/data/candles.py:110 | no string is lexicographically less than itself |
| Candles.Later | app/data/candles.py:110 | comparing a naive with an aware datetime raises |
| Candles.LaterIrreflexive | app/data/candles.py:110 | a candle time is never later than itself |
| Candles.InitialPullSpec | app/data/candles.py:78-95 | a failed pull keeps the window with no reference time; a successful one replaces the window, and a reference time is only ever the newest fetched candle's time |
| Candles.LiveStepSpec | app/data/candles.py:97-122 | a pass that does not take the newest closed candle changes nothing; one that does makes it the reference and the window's last candle, evicting at most the oldest; a window within count stays within count |
| Candles.SameCandleNotTakenTwice | app/data/candles.py:109-115 | a candle whose time equals the reference is not appended again |
| Candles.FullWindowSlides | app/data/candles.py:111-114 | a full window keeps its length and slides by one candle |
| Candles.LiveCandleCollector.constructor | app/data/candles.py:28-40 | missing or zero timeframe, count and interval take their defaults; no candles, no reference, not running |
| Candles.LiveCandleCollector.BarLength | app/data/candles.py:63-72 | the bar length uses the configured interval for unknown timeframes |
| Candles.LiveCandleCollector.Start | app/data/candles.py:42-48 | starting is idempotent: a running collector starts no second thread, and the window is untouched |
| Candles.LiveCandleCollector.Stop | app/data/candles.py:50-56 | stopping clears the running flag and leaves the window |
| Candles.LiveCandleCollector.GetLatestCandles | app/data/candles.py:58-61 | returns the current window |
| Candles.LiveCandleCollector.InitialPull | app/data/candles.py:74-95 | the collector's new state is the initial pull's |
| Candles.LiveCandleCollector.CollectStep | app/data/candles.py:97-122 | the collector's new state is one loop pass's |
| Candles.Stamp | app/data/candles.py:241-251 | a candle with a known time is closed exactly when its bar has ended by now; one without keeps its flag or is taken as closed; every other key is kept |
| Candles.StampStaysClosed | app/data/candles.py:241-251 | a bar closed at one moment stays closed later |
| Candles.StampAll | app/data/candles.py:241-251 | every candle of the list is stamped, in order |
| Candles.StampIsClosed | app/data/candles.py:241-251 | the stamped list is every candle stamped with the timeframe's bar length |
| Candles.Tag | app/data/candles.py:277-278 | every candle gets the symbol, and nothing else changes |
| Candles.NewestClosed | app/data/candles.py:286-291 | none exactly when no candle is flagged closed; otherwise the time of the last candle flagged closed |
| Candles.NewestTime | app/data/candles.py:292 | the newest closed time when it is truthy, else the last candle's time |
| Candles.Fresh | app/data/candles.py:277-283 | what a fetch stores has one candle per fetched candle |
| Candles.PollSpec | app/data/candles.py:265-320 | a timeframe not yet due is untouched; a due one is rescheduled whatever happens, a failed fetch stores nothing, a successful one replaces the candles and, when non-empty, sets the last bar time to the newest time; other timeframes keep theirs |
| Candles.UnchangedBarKeepsLastBar | app/data/candles.py:309-313 | an unchanged newest bar time leaves the last bar times alone |
| Candles.PolledNotDueAgain | app/data/candles.py:266-267 | a timeframe polled in one second is not fetched again in that second |
| Candles.PassSchedulesFuture | app/data/candles.py:265-320 | after a pass every polled timeframe is due strictly in the future |
| Candles.StampEpoch | app/data/candles.py:262 | the tick's time stamps the candles when there is one, otherwise the wall clock |
| Candles.MultiTimeframeCandleCollector.constructor | app/data/candles.py:149-170 | missing or empty timeframes default to M1, M5, M15; every timeframe starts with no candles, no bar time, due at once |
| Candles.MultiTimeframeCandleCollector.Start | app/data/candles.py:172-177 | starting is idempotent and leaves the stored candles |
| Candles.MultiTimeframeCandleCollector.Stop | app/data/candles.py:179-184 | stopping clears the running flag and leaves the stored candles |
| Candles.MultiTimeframeCandleCollector.GetAllLatestCandles | app/data/candles.py:186-194 | without a timeframe, every timeframe's candles |
| Candles.MultiTimeframeCandleCollector.GetLatestCandles | app/data/candles.py:186-194 | one timeframe's candles, empty for an unknown timeframe |
| Candles.MultiTimeframeCandleCollector.ResetSchedule | app/data/candles.py:253-255 | every configured timeframe becomes due at once, nothing else changes |
| Candles.MultiTimeframeCandleCollector.PollTimeframe | app/data/candles.py:265-320 | the collector's new state is one timeframe poll's |
| Candles.MultiTimeframeCandleCollector.CollectPass | app/data/candles.py:257-320 | the collector's new state is a pass over the timeframes in order, stamped with the tick time or the wall clock |

## Left out

- Indicator math (SMA crossover, MACD, RSI, EMA) is floating-point numerics over pandas and numpy. Indicator outputs enter the model as parameters: trend labels or sequences of reals.
- Threads, locks, sleeps and the polling loops' scheduling are concurrency. One iteration of each background loop is a method, and the loop itself is not modelled. This covers the collectors' `_collect`, the orchestrator's `_run` and the sleep between polls.
- MetaTrader 5 calls are foreign and cannot be seen:
  - `order_send`, `symbol_info`, `symbol_info_tick`, `positions_get`, `orders_get`;
  - the live branches of `close_position` and order placement;
  - the broker's pending-order sends and cancels.

  What they return is a parameter. For example, the OCO reconciliation takes the set of still-pending order tickets as an argument.
- The trade executor's `execute_exit` after the debounce gate is a live MetaTrader order send with retries over filling modes (app/services/helpers/trade_execution.py:205-285). Only the gate is modelled: the field checks, the volume check and the 2-second per-ticket debounce.
- `time.time()`, `datetime.now()` and `uuid` are parameters. A group id is whatever id the caller passes.
- Float formatting is modelled as exact decimal rounding on reals, not binary floating point. This covers `round(x, digits)` in price normalisation and the `:.2f` volume rounding. Round-half-to-even is applied to the exact value.
- `Base.ParseDecimal` accepts decimal literals with optional sign and surrounding white space. Exponents, `inf`, `nan` and digit underscores are treated as unparsable.
- Candles.CandleTimeToEpoch: a `datetime.date` without a time (read as midnight UTC) and foreign objects with a callable `timestamp()` are not modelled; both fall under "other object", which has no epoch here.
- The candle-jump diagnostic in the multi-timeframe collector (app/data/candles.py:295-307) only prints, and is left out.
- All logging, `print` and log-file writes are left out.
- Wiring and configuration are not part of this model:
  - the factories `create_signal_strategy`, `strategy_factory`, `create_candle_collector` and `create_multi_timeframe_candle_collector`;
  - `Config` constants, which appear as defaults in configuration records;
  - HTTP and websocket surfaces.
- The module app/exit_strategies/exit_shared.py, which the hybrid engine and its managers import, is not part of this model. Its accessors are modelled after app/strategies/exit/exit_shared.py, which is `ExitShared`.
- Commented-out code is not modelled:
  - the post-break-even rules of both loss managers;
  - the timeout exits of both profit managers.

  The unreachable recovery check at app/exit_strategies/managers/profit.py:125-126 is also not modelled.
- The hybrid engine's `on_candle_close` calls a manager method that the profit manager does not define, so the call raises `AttributeError` (app/exit_strategies/exit_trade.py:236-267). The model keeps that: a candle-close evaluation of a matching position raises, and the orchestrator catches it.
- Aliasing of mutable dicts is not modelled. Candles, signals and positions are values, so an in-place update (such as `_stamp_is_closed` or `c["symbol"] = ...`) is modelled as returning the updated list.
- Base.Lower and Base.Strip fold case and trim white space for ASCII only. Python's `str.lower()`, `str.upper()` and `str.strip()` also act on other Unicode letters and spaces (`"ſell".upper() == "SELL"`), which the model does not follow.
- Orchestrator.SignalOrchestrator.RunOnce takes whether a bar's entries raise as the parameter `entriesRaise`. The generator call inside `_run_entries` is outside this model; DispatchSignals states when the dispatch itself raises (a truthy non-string `final_signal` on the direct path). The abort this causes is modelled: the pass ends, the bar's candle-close exits and the remaining symbols are skipped, and the sleep is 1 s.
- Entry.EnterTrade returns the placements the trade executor makes for the request. The Python method returns the value of `process_signal`, which is always None.
- Orchestrator.OnTickPlan and Orchestrator.SignalCalls place orders with the symbol passed through `str()`; the tick path of the source passes `sig["symbol"]` unconverted. The broker class of the repository (app/execution/broker.py) has no `place_market_order`, `place_order` or `open_position`, so with that broker the tick path's broker route always raises and the direct path never places; the wiring record leaves this as a flag.
- Broker.NormalizePrice and Oco.OcoNormalizePrice read a negative digit count as 0.
- Candles.MultiTimeframeCandleCollector compares bar times by structural value equality, so an int time and an equal float time count as different, where Python's `!=` treats them as equal.

## Findings

| source | as written | input that shows it | evidently intended | confidence | as-written member | corrected member |
|---|---|---|---|---|---|---|
| app/strategies/breakout_strategy.py:31-33 | the breakout scan calls `get_symbol_data` without `num_bars`, which that function requires (app/data/market_data.py:36), so the call raises `TypeError` for the first listed symbol that has a tick, and `generate_signals` raises instead of returning signals | any scan in which one listed symbol has a tick | fetch the opening-range candles and test the ask against their high and low | not executed | Breakout.AsWrittenScanRaisesOnAnyTick | Breakout.GeneratedOrdersBreakOut |
| app/signals/strategies/ntick_confirmed_signal_strategy.py:172-179 | `_reset` clears the pending signal and the tick results but keeps `_last_tick_price`, and movement is measured from it whenever it is set (lines 67-70), so a new pending signal is measured from the previous run's last favourable tick instead of its own entry price | pending buy at close 1.0, tick 1.5 (favourable); a sell candle at close 1.2 starts a new run; a tick at 1.2 is then measured against 1.5 and counted favourable for the sell although the price has not moved from the entry | each pending signal measures its first tick from its own entry price | not executed | NTickMovement.StaleReferenceCountsUnmovedTick | NTickMovement.CorrectedGenerateKeepsFreshReference |
