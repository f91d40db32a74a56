// The pip-based exit managers: the same break-even arming state machine as
// the profit-based ones, but measured in pips gained against the entry.  The
// loss manager arms break-even and exits once when the trade crosses back
// into loss; the profit manager trails the best pip gain once armed.

module PipManagers {
  import opened Base
  import opened ExitShared
  import ProfitManagers

  /** Pip gain at or below which a position is dropped inside the arming window. */
  const DropPips: real := -3.0
  /** Pull-back in pips from the best gain that closes immediately. */
  const BreachThresholdPips: real := 0.4

  /** `pips_to_price(symbol, 1) or 0.0001`: a zero pip falls back to 0.0001. */
  function PipOr(pipPrice: real): (pip: real)
    ensures pip != 0.0
    ensures pipPrice != 0.0 ==> pip == pipPrice
  {
    if pipPrice == 0.0 then 0.0001 else pipPrice
  }

  /** Pips the price has gained in the position's favour since entry (negative when against it). */
  function PipGain(side: Side, entry: real, price: real, pip: real): (g: real)
    requires pip != 0.0
    ensures pip > 0.0 ==> (g > 0.0 <==> (if side == Buy then price > entry else price < entry))
    ensures pip > 0.0 ==> (g == 0.0 <==> price == entry)
  {
    if side == Buy then (price - entry) / pip else (entry - price) / pip
  }

  // ---------------------------------------------------------------------
  // Loss manager
  // ---------------------------------------------------------------------

  /**
   * What one call of the pip-based loss manager promises for a complete
   * position `v` whose tick price reads as `price`.
   */
  ghost predicate PipLossSpec(ratio: real, pipPrice: real, v: PositionView, price: Conv,
                              st0: PosState, out: Outcome, st: PosState)
  {
    var s1 := ProfitManagers.ArmingInit(st0);
    var gain := if price.Parsed? then PipGain(v.side, v.entry, price.x, PipOr(pipPrice)) else 0.0;
    // A price that is not a number raises before anything changes.
    (!price.Parsed? ==> out == Raise && st == st0) &&
    (price.Parsed? ==>
      // Exits close `volume * ratio` on the opposite side, for one of two reasons.
      (out.Exit? ==> out.action == CloseAction(v.ticket, v.symbol, v.side, v.volume, ratio, out.action.reason) &&
                     out.action.reason in {PipDrop, CrossedToLossAfterBe}) &&
      st.beArmed.Some? &&
      (s1.beArmed == Some(true) ==> st.beArmed == Some(true)) &&
      // Inside the window: one more arming tick, a drop of three pips exits, break-even arms.
      (ProfitManagers.InWindow(s1) ==> st.beArmingTicks == Some(s1.beArmingTicks.value + 1)) &&
      (ProfitManagers.InWindow(s1) && gain <= DropPips ==>
         out == Exit(CloseAction(v.ticket, v.symbol, v.side, v.volume, ratio, PipDrop))) &&
      (out.Exit? && out.action.reason == PipDrop ==> ProfitManagers.InWindow(s1) && gain <= DropPips) &&
      (ProfitManagers.InWindow(s1) && gain >= 0.0 ==>
         out == NoExit && st.beArmed == Some(true) && st.wasUnprofitableAfterBe == Some(false)) &&
      (ProfitManagers.InWindow(s1) && DropPips < gain < 0.0 ==> out == NoExit && st.beArmed == Some(false)) &&
      // Window used up without arming: nothing more happens.
      (s1.beArmed == Some(false) && s1.beArmingTicks.Some? && !ProfitManagers.InWindow(s1) ==> out == NoExit && st == s1) &&
      // After break-even: the first loss exits once and latches.
      (s1.beArmed == Some(true) && gain < 0.0 && s1.wasUnprofitableAfterBe == Some(false) ==>
         out == Exit(CloseAction(v.ticket, v.symbol, v.side, v.volume, ratio, CrossedToLossAfterBe)) &&
         st.wasUnprofitableAfterBe == Some(true)) &&
      (out.Exit? && out.action.reason == CrossedToLossAfterBe ==>
         s1.beArmed == Some(true) && s1.wasUnprofitableAfterBe == Some(false) &&
         st.wasUnprofitableAfterBe == Some(true) && gain < 0.0) &&
      (s1.beArmed == Some(true) && s1.wasUnprofitableAfterBe == Some(true) ==> out == NoExit && st == s1) &&
      (s1.beArmed == Some(true) && gain >= 0.0 ==> out == NoExit && st == s1) &&
      (out == Raise ==> s1.beArmingTicks.None? || s1.wasUnprofitableAfterBe.None?))
  }

  /** The rules of the pip-based loss manager once the position has been read. */
  method PipLossRules(ratio: real, pipPrice: real, v: PositionView, price: Conv, st0: PosState)
    returns (out: Outcome, st: PosState)
    ensures PipLossSpec(ratio, pipPrice, v, price, st0, out, st)
  {
    if !price.Parsed? {
      return Raise, st0;
    }
    var gain := PipGain(v.side, v.entry, price.x, PipOr(pipPrice));
    st := ProfitManagers.ArmingInit(st0);
    if st.beArmed == Some(false) {
      if st.beArmingTicks.None? {
        return Raise, st;
      }
      if st.beArmingTicks.value < ProfitManagers.BeArmingTicks {
        st := st.(beArmingTicks := Some(st.beArmingTicks.value + 1));
        if gain <= DropPips {
          return Exit(CloseAction(v.ticket, v.symbol, v.side, v.volume, ratio, PipDrop)), st;
        }
        if gain >= 0.0 {
          st := st.(beArmed := Some(true), wasProfitableAfterUnprofit := Some(false), wasUnprofitableAfterBe := Some(false));
          return NoExit, st;
        }
      }
    }
    if st.beArmed == Some(true) && gain < 0.0 {
      if st.wasUnprofitableAfterBe.None? {
        return Raise, st;
      }
      if !st.wasUnprofitableAfterBe.value {
        st := st.(wasUnprofitableAfterBe := Some(true));
        return Exit(CloseAction(v.ticket, v.symbol, v.side, v.volume, ratio, CrossedToLossAfterBe)), st;
      }
    }
    return NoExit, st;
  }

  /**
   * `LossExitManager.check_exit_on_tick` (pip-based): an incomplete position
   * gives no decision and leaves the state as it is.  The tick price is used
   * as it comes, so a missing or non-numeric one raises.
   */
  method PipLossCheckExitOnTick(ratio: real, pipPrice: real, pos: Record, tick: Option<Record>, st0: PosState)
    returns (out: Outcome, st: PosState)
    ensures ReadPosition(pos).ReadRaised? ==> out == Raise && st == st0
    ensures ReadPosition(pos).Incomplete? ==> out == NoExit && st == st0
    ensures ReadPosition(pos).Complete? ==>
              PipLossSpec(ratio, pipPrice, ReadPosition(pos).view,
                          RawNumber(TickValue(tick, CloseKey(ReadPosition(pos).view.side))), st0, out, st)
  {
    match ReadPosition(pos)
    case ReadRaised => return Raise, st0;
    case Incomplete => return NoExit, st0;
    case Complete(v) =>
      out, st := PipLossRules(ratio, pipPrice, v, RawNumber(TickValue(tick, CloseKey(v.side))), st0);
  }

  /**
   * Two consecutive calls on the same state never both exit with
   * `crossed_to_loss_after_be`: the latch set by the first blocks the second.
   */
  lemma CrossedToLossFiresOnce(ratio: real, pipPrice: real, v: PositionView, p1: Conv, p2: Conv,
                               st0: PosState, out1: Outcome, st1: PosState, out2: Outcome, st2: PosState)
    requires PipLossSpec(ratio, pipPrice, v, p1, st0, out1, st1)
    requires PipLossSpec(ratio, pipPrice, v, p2, st1, out2, st2)
    requires out1.Exit? && out1.action.reason == CrossedToLossAfterBe
    ensures !(out2.Exit? && out2.action.reason == CrossedToLossAfterBe)
    ensures st2.wasUnprofitableAfterBe == Some(true)
  {
    assert st1.beArmed == Some(true);
    assert ProfitManagers.ArmingInit(st1) == st1;
  }

  // ---------------------------------------------------------------------
  // Profit manager
  // ---------------------------------------------------------------------

  /**
   * What one call of the pip-based profit manager promises for a complete
   * position `v` with tick price `price` and position profit `profit`
   * (`pos_profit`, None when absent).
   */
  ghost predicate PipProfitSpec(ratio: real, pipPrice: real, v: PositionView, price: Conv, profit: Conv,
                                st0: PosState, out: Outcome, st: PosState)
  {
    var armed := st0.beArmed.Some? && st0.beArmed.value;
    var gain := if price.Parsed? then PipGain(v.side, v.entry, price.x, PipOr(pipPrice)) else 0.0;
    // Trailing runs when the position's profit is absent or positive.
    var trailing := profit.Missing? || (profit.Parsed? && profit.x > 0.0);
    // Nothing happens before the loss manager has armed break-even.
    (!armed ==> out == NoExit && st == st0) &&
    (armed && !price.Parsed? ==> out == Raise && st == st0) &&
    (armed && price.Parsed? ==>
      (profit.Invalid? ==> out == Raise && st == st0) &&
      // No trailing while the position's own profit is not positive.
      (profit.Parsed? && profit.x <= 0.0 ==> out == NoExit && st == st0) &&
      // The only exit: a pull-back of at least the threshold from the best gain.
      (out.Exit? ==> out.action == CloseAction(v.ticket, v.symbol, v.side, v.volume, ratio, TrailingBreachGt04Pip) &&
                     st.bestPipGain.Some? && 0.0 < gain < st.bestPipGain.value &&
                     st.bestPipGain.value - gain >= BreachThresholdPips) &&
      (!profit.Invalid? ==> out != Raise) &&
      // The best gain never decreases, and a new best resets the breach counter.
      (st0.bestPipGain.Some? && st.bestPipGain.Some? ==> st.bestPipGain.value >= st0.bestPipGain.value) &&
      (st0.bestPipGain.Some? && gain > st0.bestPipGain.value && trailing ==>
         st.bestPipGain == Some(gain) && st.breachTicks == Some(0)) &&
      // A small pull-back counts a breach tick, no pull-back resets the count.
      (st0.bestPipGain.Some? && st0.breachTicks.Some? && trailing &&
       0.0 < gain < st0.bestPipGain.value && st0.bestPipGain.value - gain < BreachThresholdPips ==>
         out == NoExit && st.breachTicks == Some(st0.breachTicks.value + 1)) &&
      ((trailing && st.bestPipGain.Some? &&
        !(0.0 < gain < st.bestPipGain.value)) ==> st.breachTicks == Some(0)) &&
      // A pull-back of at least the threshold below the best gain so far closes the position.
      (trailing && st0.bestPipGain.Some? &&
       0.0 < gain < st0.bestPipGain.value && st0.bestPipGain.value - gain >= BreachThresholdPips ==>
         out == Exit(CloseAction(v.ticket, v.symbol, v.side, v.volume, ratio, TrailingBreachGt04Pip))) &&
      // The no-exit path of a trailing position remembers the price and counts the tick.
      (trailing && out == NoExit ==>
         st.prevPrice == price.x && st.ticksSeen == st0.ticksSeen + 1))
  }

  /** The rules of the pip-based profit manager once the position has been read. */
  method PipProfitRules(ratio: real, pipPrice: real, v: PositionView, price: Conv, profit: Conv, st0: PosState)
    returns (out: Outcome, st: PosState)
    ensures PipProfitSpec(ratio, pipPrice, v, price, profit, st0, out, st)
  {
    st := st0;
    if !(st.beArmed.Some? && st.beArmed.value) {
      return NoExit, st;
    }
    if !price.Parsed? {
      return Raise, st;
    }
    var gain := PipGain(v.side, v.entry, price.x, PipOr(pipPrice));
    if profit.Invalid? {
      return Raise, st;
    }
    if profit.Parsed? && profit.x <= 0.0 {
      return NoExit, st;
    }
    if st.bestPipGain.None? {
      st := st.(bestPipGain := Some(gain), breachTicks := Some(0));
    }
    if gain > st.bestPipGain.value {
      st := st.(bestPipGain := Some(gain), breachTicks := Some(0));
    }
    if 0.0 < gain < st.bestPipGain.value {
      if st.bestPipGain.value - gain >= BreachThresholdPips {
        return Exit(CloseAction(v.ticket, v.symbol, v.side, v.volume, ratio, TrailingBreachGt04Pip)), st;
      }
      st := st.(breachTicks := Some(st.breachTicks.GetOr(0) + 1));
    } else {
      st := st.(breachTicks := Some(0));
    }
    st := st.(prevPrice := price.x, ticksSeen := st.ticksSeen + 1);
    return NoExit, st;
  }

  /**
   * `ProfitExitManager.check_exit_on_tick` (pip-based): switched off, or an
   * incomplete position, gives no decision and leaves the state as it is.
   */
  method PipProfitCheckExitOnTick(ratio: real, pipPrice: real, profitExitsOnTick: bool, pos: Record,
                                  tick: Option<Record>, st0: PosState)
    returns (out: Outcome, st: PosState)
    ensures !profitExitsOnTick ==> out == NoExit && st == st0
    ensures profitExitsOnTick && ReadPosition(pos).ReadRaised? ==> out == Raise && st == st0
    ensures profitExitsOnTick && ReadPosition(pos).Incomplete? ==> out == NoExit && st == st0
    ensures profitExitsOnTick && ReadPosition(pos).Complete? ==>
              PipProfitSpec(ratio, pipPrice, ReadPosition(pos).view,
                            RawNumber(TickValue(tick, CloseKey(ReadPosition(pos).view.side))), PosProfit(pos),
                            st0, out, st)
  {
    if !profitExitsOnTick {
      return NoExit, st0;
    }
    match ReadPosition(pos)
    case ReadRaised => return Raise, st0;
    case Incomplete => return NoExit, st0;
    case Complete(v) =>
      out, st := PipProfitRules(ratio, pipPrice, v, RawNumber(TickValue(tick, CloseKey(v.side))), PosProfit(pos), st0);
  }
}
