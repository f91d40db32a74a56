// The hybrid exit engine: a per-ticket cooldown, a cache of higher-timeframe
// bias labels per symbol, and the profit-based loss and profit managers
// applied to every open position on each tick.

module HybridExit {
  import opened Base
  import opened ExitShared
  import ProfitManagers
  import TickExit

  /** The switches of the hybrid engine that its own code reads. */
  datatype HybridConfig = HybridConfig(
    htfFilterEnabled: bool,
    htfStaleSeconds: int,
    htfUseM15: bool,
    htfUseM5: bool,
    profitExitsOnTick: bool,
    profitExitsOnCandleClose: bool)

  /** The configuration built from the settings module's constants. */
  const DefaultHybridConfig: HybridConfig := HybridConfig(true, 180, true, true, false, true)

  /** Seconds a ticket waits between two evaluations. */
  const ExitCooldown: real := 2.0
  /** Share of the position volume an exit closes. */
  const PartialCloseRatio: real := 1.0

  /** A cached bias row: the lower-cased M5 and M15 labels and the time they were stated. */
  datatype BiasRow = BiasRow(m5: Option<string>, m15: Option<string>, ts: real)

  /** `(stated or "hold").lower()`. */
  function HtfLabel(stated: Option<string>): string {
    Lower(if stated.None? || stated.value == "" then "hold" else stated.value)
  }

  /** The label that supports a position of this side, and the one that opposes it. */
  function Supportive(side: Side): string {
    if side == Buy then "buy" else "sell"
  }

  function Opposing(side: Side): string {
    if side == Buy then "sell" else "buy"
  }

  /** The cached row is older than the configured staleness limit. */
  predicate Stale(cfg: HybridConfig, row: BiasRow, now: real) {
    cfg.htfStaleSeconds > 0 && now - row.ts > cfg.htfStaleSeconds as real
  }

  /**
   * `_htf_allows_profit_exit`: whether the higher-timeframe bias lets a
   * profit-taking exit of a `side` position on `symbol` go ahead at `now`.
   * It blocks exactly when the filter is on, a fresh row exists and either
   * M15 supports the position, or M15 is neutral and M5 (in use) does not
   * oppose it.
   */
  function HtfAllowsProfitExit(cfg: HybridConfig, bias: map<string, BiasRow>, symbol: string, side: Side, now: real): (ok: bool)
    ensures !cfg.htfFilterEnabled || symbol !in bias ==> ok
    ensures symbol in bias && Stale(cfg, bias[symbol], now) ==> ok
    ensures !ok <==>
              cfg.htfFilterEnabled && symbol in bias && !Stale(cfg, bias[symbol], now) &&
              ((cfg.htfUseM15 && HtfLabel(bias[symbol].m15) == Supportive(side)) ||
               (!(cfg.htfUseM15 && HtfLabel(bias[symbol].m15) == Opposing(side)) &&
                cfg.htfUseM5 && HtfLabel(bias[symbol].m5) != Opposing(side)))
  {
    if !cfg.htfFilterEnabled || symbol !in bias then true
    else
      var row := bias[symbol];
      if Stale(cfg, row, now) then true
      else
        var m15 := HtfLabel(row.m15);
        var m5 := HtfLabel(row.m5);
        if cfg.htfUseM15 && m15 == Supportive(side) then false
        else if cfg.htfUseM15 && m15 == Opposing(side) then true
        else if cfg.htfUseM5 then m5 == Opposing(side)
        else true
  }

  /** The labels stated by `update_bias` are lower case, so reading them back changes nothing. */
  lemma {:induction false} LowerIdempotent(s: string)
    ensures Lower(Lower(s)) == Lower(s)
  {
    if s != [] {
      LowerIdempotent(s[1..]);
      assert Lower(s)[1..] == Lower(s[1..]);
    }
  }

  /**
   * Whatever case the labels were stated in, a bias whose M15 and M5 both
   * oppose the position never blocks a profit exit, and a fresh bias whose
   * M15 supports it (M15 in use) always does.
   */
  lemma HtfGateOfStatedLabels(cfg: HybridConfig, bias: map<string, BiasRow>, symbol: string, side: Side, now: real,
                              m5: string, m15: string)
    requires symbol in bias && bias[symbol].m5 == Some(Lower(m5)) && bias[symbol].m15 == Some(Lower(m15))
    ensures Lower(m15) == Opposing(side) && Lower(m5) == Opposing(side) ==> HtfAllowsProfitExit(cfg, bias, symbol, side, now)
    ensures cfg.htfFilterEnabled && cfg.htfUseM15 && !Stale(cfg, bias[symbol], now) && Lower(m15) == Supportive(side) ==>
              !HtfAllowsProfitExit(cfg, bias, symbol, side, now)
  {
    LowerIdempotent(m5);
    LowerIdempotent(m15);
    assert Lower(m5) != "" ==> HtfLabel(Some(Lower(m5))) == Lower(m5);
    assert Lower(m15) != "" ==> HtfLabel(Some(Lower(m15))) == Lower(m15);
  }

  /** `_should_exit`'s test: at least the cooldown has passed since the last recorded time (0 when none). */
  predicate CooldownOpen(last: map<Value, real>, ticket: Value, now: real) {
    now - (if ticket in last then last[ticket] else 0.0) >= ExitCooldown
  }

  /** After the cooldown opens at `t1`, the same ticket is refused for the rest of the window. */
  lemma CooldownOncePerWindow(last: map<Value, real>, ticket: Value, t1: real, t2: real)
    requires CooldownOpen(last, ticket, t1)
    requires t2 < t1 + ExitCooldown
    ensures !CooldownOpen(last[ticket := t1], ticket, t2)
  {
  }

  /** `a` closes the complete position `pos` with the engine's partial-close ratio. */
  predicate ClosesPosition(pos: Record, a: ExitAction) {
    ReadPosition(pos).Complete? &&
    a == CloseAction(ReadPosition(pos).view.ticket, ReadPosition(pos).view.symbol, ReadPosition(pos).view.side,
                     ReadPosition(pos).view.volume, PartialCloseRatio, a.reason)
  }

  /** The reasons the loss manager gives. */
  predicate LossReason(r: Reason) {
    r in {ProfitDrop, ProfitDropAfterBe, BeRecoveredAfterUnprofit}
  }

  /** `setdefault`'s view of a ticket's state: the stored one, or a fresh one. */
  function StateOf(states: map<Value, PosState>, ticket: Value): PosState {
    if ticket in states then states[ticket] else NewPosState(0.0, 0.0)
  }

  /**
   * The managers on one ticket's state: the loss manager, then, when it
   * decides nothing and profit exits run on ticks, the profit manager on the
   * state the loss manager left.
   */
  function Managers(cfg: HybridConfig, pos: Record, tick: Option<Record>, st0: PosState): (Outcome, PosState) {
    var l := ProfitManagers.LossCheck(PartialCloseRatio, pos, st0);
    if l.0 != NoExit || !cfg.profitExitsOnTick then l
    else ProfitManagers.ProfitCheck(PartialCloseRatio, true, pos, tick, l.1)
  }

  /**
   * One position of `on_tick` on the states and the cooldown times: a
   * position without a ticket, or whose cooldown has not passed, changes
   * nothing; otherwise the cooldown restarts at `now` and the managers'
   * state is stored under the ticket, also when a manager raises.
   */
  function Visit(cfg: HybridConfig, tick: Option<Record>, now: real, states: map<Value, PosState>,
                 lastExit: map<Value, real>, pos: Record): (Outcome, map<Value, PosState>, map<Value, real>)
  {
    var t := PosTicket(pos);
    if t == VNone || !CooldownOpen(lastExit, t, now) then (NoExit, states, lastExit)
    else
      var m := Managers(cfg, pos, tick, StateOf(states, t));
      (m.0, states[t := m.1], lastExit[t := now])
  }

  /** What `on_tick` has gathered after some positions. */
  datatype Pass = Pass(actions: seq<ExitAction>, states: map<Value, PosState>, lastExit: map<Value, real>, raised: bool)

  /**
   * The positions visited in order: each exit is appended, and the first
   * exception stops the pass with the states and times as they were left.
   */
  function VisitAll(cfg: HybridConfig, tick: Option<Record>, now: real, states0: map<Value, PosState>,
                    lastExit0: map<Value, real>, positions: seq<Record>): Pass
    decreases |positions|
  {
    if positions == [] then Pass([], states0, lastExit0, false)
    else
      var p := VisitAll(cfg, tick, now, states0, lastExit0, positions[..|positions| - 1]);
      if p.raised then p
      else
        var r := Visit(cfg, tick, now, p.states, p.lastExit, positions[|positions| - 1]);
        if r.0 == Raise then Pass(p.actions, r.1, r.2, true)
        else Pass(p.actions + (if r.0.Exit? then [r.0.action] else []), r.1, r.2, false)
  }

  /** Once an exception has escaped, the later positions change nothing. */
  lemma {:induction false} VisitAllStops(cfg: HybridConfig, tick: Option<Record>, now: real, states0: map<Value, PosState>,
                                         lastExit0: map<Value, real>, positions: seq<Record>, i: int)
    requires 0 <= i <= |positions|
    requires VisitAll(cfg, tick, now, states0, lastExit0, positions[..i]).raised
    ensures VisitAll(cfg, tick, now, states0, lastExit0, positions) == VisitAll(cfg, tick, now, states0, lastExit0, positions[..i])
    decreases |positions| - i
  {
    if i == |positions| {
      assert positions[..i] == positions;
    } else {
      assert positions[..i + 1][..i] == positions[..i];
      VisitAllStops(cfg, tick, now, states0, lastExit0, positions, i + 1);
    }
  }

  /** Every exit the managers give closes the position they read, with a loss reason unless profit exits run on ticks. */
  lemma ManagersClose(cfg: HybridConfig, pos: Record, tick: Option<Record>, st0: PosState)
    ensures var m := Managers(cfg, pos, tick, st0);
            m.0.Exit? ==> ClosesPosition(pos, m.0.action) && (!cfg.profitExitsOnTick ==> LossReason(m.0.action.reason))
  {
    if ReadPosition(pos).Complete? {
      var v := ReadPosition(pos).view;
      var l := ProfitManagers.LossStep(PartialCloseRatio, v, AttrProfit(pos), IsBreakEven(pos), st0);
      if l.0 == NoExit && cfg.profitExitsOnTick {
        var pr := ProfitManagers.ProfitStep(PartialCloseRatio, v, TickValue(tick, CloseKey(v.side)),
                                            AttrProfit(pos), IsBreakEven(pos), l.1);
        ProfitManagers.ProfitStepMeetsSpec(PartialCloseRatio, v, TickValue(tick, CloseKey(v.side)),
                                           AttrProfit(pos), IsBreakEven(pos), l.1);
      }
    }
  }

  /** The exits a pass gathers close open positions, with loss reasons unless profit exits run on ticks. */
  lemma {:induction false} VisitAllCloses(cfg: HybridConfig, tick: Option<Record>, now: real, states0: map<Value, PosState>,
                                          lastExit0: map<Value, real>, positions: seq<Record>)
    ensures forall a :: a in VisitAll(cfg, tick, now, states0, lastExit0, positions).actions ==>
              (exists q :: q in positions && ClosesPosition(q, a)) && (!cfg.profitExitsOnTick ==> LossReason(a.reason))
    decreases |positions|
  {
    if positions != [] {
      var rest := positions[..|positions| - 1];
      var last := positions[|positions| - 1];
      VisitAllCloses(cfg, tick, now, states0, lastExit0, rest);
      assert forall q :: q in rest ==> q in positions;
      var p := VisitAll(cfg, tick, now, states0, lastExit0, rest);
      if !p.raised && PosTicket(last) != VNone && CooldownOpen(p.lastExit, PosTicket(last), now) {
        ManagersClose(cfg, last, tick, StateOf(p.states, PosTicket(last)));
      }
    }
  }

  /** A pass keeps every state it started with and adds states only for the positions' tickets. */
  lemma {:induction false} VisitAllStates(cfg: HybridConfig, tick: Option<Record>, now: real, states0: map<Value, PosState>,
                                          lastExit0: map<Value, real>, positions: seq<Record>)
    ensures var p := VisitAll(cfg, tick, now, states0, lastExit0, positions);
            states0.Keys <= p.states.Keys && p.states.Keys <= states0.Keys + TickExit.TicketsOf(positions)
    decreases |positions|
  {
    if positions != [] {
      var n := |positions| - 1;
      var rest := positions[..n];
      VisitAllStates(cfg, tick, now, states0, lastExit0, rest);
      TickExit.TicketsOfStep(positions, n);
      assert positions[..n + 1] == positions;
      var p := VisitAll(cfg, tick, now, states0, lastExit0, rest);
      if !p.raised {
        VisitKeys(cfg, tick, now, p.states, p.lastExit, positions[n]);
      }
    }
  }

  /** One position keeps every state and adds at most its own ticket's. */
  lemma VisitKeys(cfg: HybridConfig, tick: Option<Record>, now: real, states: map<Value, PosState>,
                  lastExit: map<Value, real>, pos: Record)
    ensures var r := Visit(cfg, tick, now, states, lastExit, pos).1;
            r == states || (PosTicket(pos) != VNone && r.Keys == states.Keys + {PosTicket(pos)})
  {
  }

  /** The cooldown times a pass sets are all `now`. */
  lemma {:induction false} VisitAllTimes(cfg: HybridConfig, tick: Option<Record>, now: real, states0: map<Value, PosState>,
                                         lastExit0: map<Value, real>, positions: seq<Record>)
    ensures var p := VisitAll(cfg, tick, now, states0, lastExit0, positions);
            forall t :: t in p.lastExit ==> t in lastExit0 || p.lastExit[t] == now
    decreases |positions|
  {
    if positions != [] {
      VisitAllTimes(cfg, tick, now, states0, lastExit0, positions[..|positions| - 1]);
    }
  }

  /** A position on `symbol` with a ticket whose cooldown has passed: where `on_candle_close` raises. */
  predicate CandleCandidate(pos: Record, symbol: string, lastExit: map<Value, real>, now: real) {
    PosSymbol(pos).GetOr("") == symbol && PosTicket(pos) != VNone && CooldownOpen(lastExit, PosTicket(pos), now)
  }

  class HybridExitEngine {
    const cfg: HybridConfig
    /** `_state_by_ticket`. */
    var states: map<Value, PosState>
    /** `_bias_by_symbol`. */
    var bias: map<string, BiasRow>
    /** `_last_exit_time`. */
    var lastExitTime: map<Value, real>

    constructor(cfg: HybridConfig)
      ensures this.cfg == cfg && states == map[] && bias == map[] && lastExitTime == map[]
    {
      this.cfg := cfg;
      states := map[];
      bias := map[];
      lastExitTime := map[];
    }

    /**
     * `update_bias`: an empty symbol is ignored; otherwise the labels given
     * are stored lower-cased, those not given keep their previous value, and
     * the time is always refreshed (to `asof`, or the clock).
     */
    method UpdateBias(symbol: string, m5: Option<string>, m15: Option<string>, asof: Option<real>, now: real)
      modifies this
      ensures symbol == "" ==> bias == old(bias)
      ensures symbol != "" ==> bias.Keys == old(bias).Keys + {symbol}
      ensures symbol != "" ==> forall s :: s in bias && s != symbol ==> bias[s] == old(bias)[s]
      ensures symbol != "" ==> bias[symbol].ts == asof.GetOr(now)
      ensures symbol != "" && m5.Some? ==> bias[symbol].m5 == Some(Lower(m5.value))
      ensures symbol != "" && m15.Some? ==> bias[symbol].m15 == Some(Lower(m15.value))
      ensures symbol != "" && m5.None? ==>
                bias[symbol].m5 == (if symbol in old(bias) then old(bias)[symbol].m5 else None)
      ensures symbol != "" && m15.None? ==>
                bias[symbol].m15 == (if symbol in old(bias) then old(bias)[symbol].m15 else None)
      ensures states == old(states) && lastExitTime == old(lastExitTime)
    {
      if symbol == "" {
        return;
      }
      var row := if symbol in bias then bias[symbol] else BiasRow(None, None, 0.0);
      if m5.Some? {
        row := row.(m5 := Some(Lower(m5.value)));
      }
      if m15.Some? {
        row := row.(m15 := Some(Lower(m15.value)));
      }
      row := row.(ts := asof.GetOr(now));
      bias := bias[symbol := row];
    }

    /**
     * `_should_exit`: true at most once per cooldown window for a ticket;
     * every true answer records `now` for the ticket, whether or not an
     * exit follows.
     */
    method ShouldExit(ticket: Value, now: real) returns (go: bool)
      modifies this
      ensures go == CooldownOpen(old(lastExitTime), ticket, now)
      ensures go ==> lastExitTime == old(lastExitTime)[ticket := now]
      ensures !go ==> lastExitTime == old(lastExitTime)
      ensures states == old(states) && bias == old(bias)
    {
      var last := if ticket in lastExitTime then lastExitTime[ticket] else 0.0;
      if now - last < ExitCooldown {
        return false;
      }
      lastExitTime := lastExitTime[ticket := now];
      return true;
    }

    /**
     * `on_tick`: every open position with a ticket whose cooldown has passed
     * runs the loss manager, and, when it does not exit and profit exits on
     * ticks are switched on, the profit manager.  No positions clears all
     * state; otherwise the state of tickets no longer open is pruned, while
     * that of open tickets (including those held back by the cooldown) is
     * kept.  An exception escaping a manager ends the call.
     */
    method OnTick(positions: seq<Record>, tick: Option<Record>, now: real) returns (r: Try<seq<ExitAction>>)
      modifies this
      ensures positions == [] ==> r == Ok([]) && states == map[] && lastExitTime == old(lastExitTime)
      // The positions are visited in order; on success the exits are returned and the states pruned.
      ensures positions != [] ==>
                var p := VisitAll(cfg, tick, now, old(states), old(lastExitTime), positions);
                lastExitTime == p.lastExit &&
                (r.Raised? <==> p.raised) &&
                (r.Raised? ==> states == p.states) &&
                (r.Ok? ==> r.value == p.actions && states == Pruned(p.states, TickExit.TicketsOf(positions)))
      ensures r.Ok? ==> states.Keys <= TickExit.TicketsOf(positions)
      ensures r.Ok? ==> forall t :: t in old(states) && t in TickExit.TicketsOf(positions) ==> t in states
      ensures r.Ok? ==> forall a :: a in r.value ==> exists p :: p in positions && ClosesPosition(p, a)
      ensures r.Ok? && !cfg.profitExitsOnTick ==> forall a :: a in r.value ==> LossReason(a.reason)
      ensures forall t :: t in lastExitTime ==> t in old(lastExitTime) || lastExitTime[t] == now
      ensures bias == old(bias)
    {
      if positions == [] {
        states := map[];
        return Ok([]);
      }
      var actions, open, raised := VisitEach(positions, tick, now);
      VisitAllCloses(cfg, tick, now, old(states), old(lastExitTime), positions);
      VisitAllStates(cfg, tick, now, old(states), old(lastExitTime), positions);
      VisitAllTimes(cfg, tick, now, old(states), old(lastExitTime), positions);
      if raised {
        return Raised;
      }
      Prune(open);
      return Ok(actions);
    }

    /** The loop of `on_tick`: the positions in order, up to the first exception. */
    method VisitEach(positions: seq<Record>, tick: Option<Record>, now: real)
      returns (actions: seq<ExitAction>, open: set<Value>, raised: bool)
      modifies this
      ensures VisitAll(cfg, tick, now, old(states), old(lastExitTime), positions) == Pass(actions, states, lastExitTime, raised)
      ensures !raised ==> open == TickExit.TicketsOf(positions)
      ensures bias == old(bias)
    {
      open := {};
      actions := [];
      var i := 0;
      while i < |positions|
        invariant 0 <= i <= |positions|
        invariant open == TickExit.TicketsOf(positions[..i])
        invariant bias == old(bias)
        invariant VisitAll(cfg, tick, now, old(states), old(lastExitTime), positions[..i]) ==
                  Pass(actions, states, lastExitTime, false)
      {
        var pos := positions[i];
        TickExit.TicketsOfStep(positions, i);
        assert positions[..i + 1][i] == pos;
        assert positions[..i + 1][..i] == positions[..i];
        if PosTicket(pos) != VNone {
          open := open + {PosTicket(pos)};
        }
        var out := VisitPosition(pos, tick, now);
        if out == Raise {
          VisitAllStops(cfg, tick, now, old(states), old(lastExitTime), positions, i + 1);
          return actions, open, true;
        }
        if out.Exit? {
          actions := actions + [out.action];
        }
        i := i + 1;
      }
      assert positions[..i] == positions;
      return actions, open, false;
    }

    /** One position of `on_tick`: nothing for a position without a ticket, the managers otherwise. */
    method VisitPosition(pos: Record, tick: Option<Record>, now: real) returns (out: Outcome)
      modifies this
      ensures (out, states, lastExitTime) == Visit(cfg, tick, now, old(states), old(lastExitTime), pos)
      ensures PosTicket(pos) == VNone ==> out == NoExit && states == old(states) && lastExitTime == old(lastExitTime)
      ensures old(states).Keys <= states.Keys
      ensures forall t :: t in states ==> t in old(states) || t == PosTicket(pos)
      ensures out.Exit? ==> ClosesPosition(pos, out.action)
      ensures out.Exit? && !cfg.profitExitsOnTick ==> LossReason(out.action.reason)
      ensures lastExitTime == old(lastExitTime) || lastExitTime == old(lastExitTime)[PosTicket(pos) := now]
      ensures bias == old(bias)
    {
      var ticket := PosTicket(pos);
      if ticket == VNone {
        return NoExit;
      }
      out := EvaluateTicket(ticket, pos, tick, now);
    }

    /**
     * One position of `on_tick` once its ticket is known: the cooldown, then
     * `setdefault` of the ticket's state, the loss manager, and the profit
     * manager when the loss manager does not exit and profit exits on ticks
     * are switched on.
     */
    method EvaluateTicket(ticket: Value, pos: Record, tick: Option<Record>, now: real) returns (out: Outcome)
      requires ticket == PosTicket(pos) && ticket != VNone
      modifies this
      ensures out.Exit? ==> ClosesPosition(pos, out.action)
      ensures out.Exit? && !cfg.profitExitsOnTick ==> LossReason(out.action.reason)
      ensures !CooldownOpen(old(lastExitTime), ticket, now) ==>
                out == NoExit && states == old(states) && lastExitTime == old(lastExitTime)
      ensures CooldownOpen(old(lastExitTime), ticket, now) ==>
                var m := Managers(cfg, pos, tick, StateOf(old(states), ticket));
                out == m.0 && states == old(states)[ticket := m.1] && lastExitTime == old(lastExitTime)[ticket := now]
      ensures states.Keys == old(states).Keys + (if CooldownOpen(old(lastExitTime), ticket, now) then {ticket} else {})
      ensures forall t :: t in states && t != ticket ==> states[t] == old(states)[t]
      ensures lastExitTime == old(lastExitTime) || lastExitTime == old(lastExitTime)[ticket := now]
      ensures bias == old(bias)
    {
      var go := ShouldExit(ticket, now);
      if !go {
        return NoExit;
      }
      out := RunManagers(ticket, pos, tick);
    }

    /** The managers' part of one position: `setdefault` of its state, the loss manager, then the profit manager. */
    method RunManagers(ticket: Value, pos: Record, tick: Option<Record>) returns (out: Outcome)
      modifies this
      ensures out == Managers(cfg, pos, tick, StateOf(old(states), ticket)).0
      ensures states == old(states)[ticket := Managers(cfg, pos, tick, StateOf(old(states), ticket)).1]
      ensures out.Exit? ==> ClosesPosition(pos, out.action)
      ensures out.Exit? && !cfg.profitExitsOnTick ==> LossReason(out.action.reason)
      ensures lastExitTime == old(lastExitTime) && bias == old(bias)
    {
      var st0 := StateOf(states, ticket);
      var st;
      out, st := ProfitManagers.LossCheckExitOnTick(PartialCloseRatio, pos, st0);
      if out == NoExit && cfg.profitExitsOnTick {
        out, st := ProfitManagers.ProfitCheckExitOnTick(PartialCloseRatio, true, pos, tick, st);
      }
      // A raising manager leaves the state as it found it, so one store covers every path.
      states := states[ticket := st];
      ManagersClose(cfg, pos, tick, st0);
    }

    /**
     * `on_candle_close`: switched off, an empty symbol or a close price that
     * `float()` refuses gives no actions; no positions clears all state.
     * The first position on `symbol` with a ticket whose cooldown has passed
     * asks the profit manager for a candle-close decision, a method the
     * manager does not have, so the call raises there.  State is never pruned.
     */
    method OnCandleClose(symbol: string, closePrice: Value, positions: seq<Record>, now: real)
      returns (r: Try<seq<ExitAction>>, ghost at: int)
      modifies this
      ensures !cfg.profitExitsOnCandleClose || symbol == "" || FloatOf(closePrice).None? ==>
                r == Ok([]) && states == old(states) && lastExitTime == old(lastExitTime)
      ensures cfg.profitExitsOnCandleClose && symbol != "" && FloatOf(closePrice).Some? && positions == [] ==>
                r == Ok([]) && states == map[]
      ensures r.Ok? ==> r.value == []
      ensures positions != [] ==> old(states).Keys <= states.Keys
      ensures r.Raised? ==>
                exists p :: p in positions && PosSymbol(p).GetOr("") == symbol && PosTicket(p) != VNone &&
                            PosTicket(p) in states
      // With the engine on and positions open, it raises exactly when some position is a candidate.
      ensures cfg.profitExitsOnCandleClose && symbol != "" && FloatOf(closePrice).Some? && positions != [] ==>
                (r.Raised? <==> exists p :: p in positions && CandleCandidate(p, symbol, old(lastExitTime), now))
      // It raises at the first candidate `at`, whose cooldown restarts and whose state is created if missing.
      ensures r.Raised? ==>
                0 <= at < |positions| && CandleCandidate(positions[at], symbol, old(lastExitTime), now) &&
                (forall j :: 0 <= j < at ==> !CandleCandidate(positions[j], symbol, old(lastExitTime), now)) &&
                lastExitTime == old(lastExitTime)[PosTicket(positions[at]) := now] &&
                states == old(states)[PosTicket(positions[at]) := StateOf(old(states), PosTicket(positions[at]))]
      ensures r.Ok? && positions != [] ==> states == old(states) && lastExitTime == old(lastExitTime)
      ensures bias == old(bias)
    {
      if !cfg.profitExitsOnCandleClose || symbol == "" || FloatOf(closePrice).None? {
        return Ok([]), -1;
      }
      if positions == [] {
        states := map[];
        return Ok([]), -1;
      }
      var k := FirstCandidate(symbol, positions, now);
      if k < 0 {
        return Ok([]), -1;
      }
      var ticket := PosTicket(positions[k]);
      assert CandleCandidate(positions[k], symbol, old(lastExitTime), now);
      assert forall j :: 0 <= j < k ==> !CandleCandidate(positions[j], symbol, old(lastExitTime), now);
      var go := ShouldExit(ticket, now);
      assert go && lastExitTime == old(lastExitTime)[ticket := now];
      if ticket !in states {
        states := states[ticket := NewPosState(0.0, 0.0)];
      }
      assert states == old(states)[ticket := StateOf(old(states), ticket)];
      assert old(states).Keys <= states.Keys;
      assert positions[k] in positions && ticket in states;
      return Raised, k;
    }

    /**
     * The scan of `on_candle_close` for the first position on `symbol` with
     * a ticket whose cooldown has passed; -1 when there is none.
     */
    method FirstCandidate(symbol: string, positions: seq<Record>, now: real) returns (k: int)
      ensures -1 <= k < |positions|
      ensures k >= 0 ==> CandleCandidate(positions[k], symbol, lastExitTime, now)
      ensures k >= 0 ==> forall j :: 0 <= j < k ==> !CandleCandidate(positions[j], symbol, lastExitTime, now)
      ensures k < 0 ==> forall j :: 0 <= j < |positions| ==> !CandleCandidate(positions[j], symbol, lastExitTime, now)
    {
      var i := 0;
      while i < |positions|
        invariant 0 <= i <= |positions|
        invariant forall j :: 0 <= j < i ==> !CandleCandidate(positions[j], symbol, lastExitTime, now)
      {
        var pos := positions[i];
        var ticket := PosTicket(pos);
        if PosSymbol(pos).GetOr("") == symbol && ticket != VNone && CooldownOpen(lastExitTime, ticket, now) {
          return i;
        }
        i := i + 1;
      }
      return -1;
    }

    /** `_prune_states`: forget every ticket not in `open`, keep the rest unchanged. */
    method Prune(open: set<Value>)
      modifies this
      ensures states == Pruned(old(states), open)
      ensures states.Keys == old(states).Keys * open
      ensures forall t :: t in states ==> states[t] == old(states)[t]
      ensures bias == old(bias) && lastExitTime == old(lastExitTime)
    {
      var keys := states.Keys;
      while keys != {}
        invariant keys <= states.Keys
        invariant forall t :: t in states ==> t in old(states) && states[t] == old(states)[t]
        invariant forall t :: t in old(states) && (t in open || t in keys) ==> t in states
        invariant forall t :: t in states && t !in keys ==> t in open
        invariant bias == old(bias) && lastExitTime == old(lastExitTime)
        decreases keys
      {
        var t :| t in keys;
        if t !in open {
          states := states - {t};
        }
        keys := keys - {t};
      }
    }
  }
}
