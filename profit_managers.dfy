// The profit-based exit managers of the hybrid exit engine.  Both work on the
// per-ticket state they are handed: the loss manager arms break-even within
// a window of ticks and watches the profit fall back afterwards; the profit
// manager, once break-even is armed, trails the best profit seen.

module ProfitManagers {
  import opened Base
  import opened ExitShared

  /** `EXIT_BE_ARMING_TICKS` (absent from the configuration, so its default). */
  const BeArmingTicks: int := 20
  /** Profit at or below which a position is dropped, before and after break-even. */
  const DropProfit: real := -5.0
  const DropProfitAfterBe: real := -5.0
  /** Upper end (exclusive) of the "back at break-even" band after a loss. */
  const RecoveryBand: real := 0.05
  /** Pull-back from the best profit that closes immediately. */
  const BreachThreshold: real := 0.04

  // ---------------------------------------------------------------------
  // Loss manager
  // ---------------------------------------------------------------------

  /** The attributes the loss manager attaches on its first call for a state. */
  function ArmingInit(st: PosState): (s: PosState)
    ensures st.beArmed.Some? ==> s == st
    ensures st.beArmed.None? ==>
              s == st.(beArmed := Some(false), beArmingTicks := Some(0),
                       wasUnprofitableAfterBe := Some(false), wasProfitableAfterUnprofit := Some(false))
  {
    if st.beArmed.Some? then st
    else st.(beArmed := Some(false), beArmingTicks := Some(0),
             wasUnprofitableAfterBe := Some(false), wasProfitableAfterUnprofit := Some(false))
  }

  /** Not armed and still inside the arming window. */
  predicate InWindow(s: PosState) {
    s.beArmed == Some(false) && s.beArmingTicks.Some? && s.beArmingTicks.value < BeArmingTicks
  }

  /**
   * What one call of the loss manager promises, for a complete position
   * `v` with manager profit `profit` and break-even reading `be`, from
   * state `st0` to `st`.
   */
  ghost predicate LossSpec(ratio: real, v: PositionView, profit: Conv, be: Try<bool>,
                           st0: PosState, out: Outcome, st: PosState)
  {
    var s1 := ArmingInit(st0);
    // Exits close `volume * ratio` on the opposite side, for one of three reasons.
    (out.Exit? ==> out.action == CloseAction(v.ticket, v.symbol, v.side, v.volume, ratio, out.action.reason) &&
                   out.action.reason in {ProfitDrop, ProfitDropAfterBe, BeRecoveredAfterUnprofit}) &&
    // The state is initialised once, and arming is never undone.
    st.beArmed.Some? &&
    (s1.beArmed == Some(true) ==> st.beArmed == Some(true)) &&
    // Inside the window: one more arming tick, a drop exits, break-even arms.
    (InWindow(s1) ==> st.beArmingTicks == Some(s1.beArmingTicks.value + 1)) &&
    (InWindow(s1) && profit.Parsed? && profit.x <= DropProfit ==>
       out == Exit(CloseAction(v.ticket, v.symbol, v.side, v.volume, ratio, ProfitDrop))) &&
    (out.Exit? && out.action.reason == ProfitDrop ==> InWindow(s1) && profit.Parsed? && profit.x <= DropProfit) &&
    (InWindow(s1) && profit.Invalid? ==> out == Raise) &&
    (InWindow(s1) && profit.Parsed? && profit.x > DropProfit && be.Raised? ==> out == Raise) &&
    (InWindow(s1) && profit.Parsed? && profit.x > DropProfit && be == Ok(true) ==>
       out == NoExit && st.beArmed == Some(true) && st.wasUnprofitableAfterBe == Some(false)) &&
    // Not yet at break-even and no drop: one more tick counted, nothing else.
    (InWindow(s1) && profit.Parsed? && profit.x > DropProfit && be == Ok(false) ==>
       out == NoExit && st == s1.(beArmingTicks := Some(s1.beArmingTicks.value + 1))) &&
    (st.beArmed == Some(true) && s1.beArmed != Some(true) ==> InWindow(s1) && be == Ok(true) && out == NoExit) &&
    // Window used up without arming: nothing more happens.
    (s1.beArmed == Some(false) && s1.beArmingTicks.Some? && !InWindow(s1) ==> out == NoExit && st == s1) &&
    // After break-even: the loss latch, the drop and the recovery.
    (s1.beArmed == Some(true) && profit.Parsed? && profit.x < 0.0 && s1.wasUnprofitableAfterBe == Some(false) ==>
       st.wasUnprofitableAfterBe == Some(true) && st.unprofitProfit == Some(profit.x)) &&
    (s1.beArmed == Some(true) && s1.wasUnprofitableAfterBe == Some(true) ==> st.wasUnprofitableAfterBe == Some(true)) &&
    (s1.beArmed == Some(true) && s1.wasUnprofitableAfterBe.Some? && profit.Parsed? ==>
       (out == Exit(CloseAction(v.ticket, v.symbol, v.side, v.volume, ratio, ProfitDropAfterBe)) <==>
        profit.x <= DropProfitAfterBe)) &&
    (s1.beArmed == Some(true) && s1.wasUnprofitableAfterBe == Some(true) && profit.Parsed? &&
     DropProfitAfterBe < profit.x && 0.0 < profit.x < RecoveryBand ==>
       out == Exit(CloseAction(v.ticket, v.symbol, v.side, v.volume, ratio, BeRecoveredAfterUnprofit))) &&
    (out.Exit? && out.action.reason == ProfitDropAfterBe ==>
       s1.beArmed == Some(true) && profit.Parsed? && profit.x <= DropProfitAfterBe) &&
    (s1.beArmed == Some(true) && profit.Invalid? ==> out == Raise) &&
    // After break-even, a profit above the drop and outside the recovery band decides nothing.
    ((s1.beArmed == Some(true) && s1.wasUnprofitableAfterBe.Some? && profit.Parsed? && profit.x > DropProfitAfterBe &&
      !(0.0 < profit.x < RecoveryBand)) ==> out == NoExit) &&
    (out.Exit? && out.action.reason == BeRecoveredAfterUnprofit ==>
       st.wasUnprofitableAfterBe == Some(true) && profit.Parsed? && 0.0 < profit.x < RecoveryBand) &&
    // An exception escapes only from a non-numeric profit or a missing attribute.
    (out == Raise ==> profit.Invalid? || be.Raised? || s1.beArmingTicks.None? || s1.wasUnprofitableAfterBe.None?)
  }

  /**
   * The loss manager's decision and new state as a function: the arming
   * window first, then the rules after break-even.
   */
  function LossStep(ratio: real, v: PositionView, profit: Conv, be: Try<bool>, st0: PosState): (Outcome, PosState)
    requires profit != Missing
  {
    var s := ArmingInit(st0);
    if s.beArmed == Some(false) && s.beArmingTicks.None? then (Raise, s)
    else if InWindow(s) then
      var s2 := s.(beArmingTicks := Some(s.beArmingTicks.value + 1));
      if profit.Invalid? then (Raise, s2)
      else if profit.x <= DropProfit then (Exit(CloseAction(v.ticket, v.symbol, v.side, v.volume, ratio, ProfitDrop)), s2)
      else if be.Raised? then (Raise, s2)
      else if be.value then
        (NoExit, s2.(beArmed := Some(true), wasProfitableAfterUnprofit := Some(false), wasUnprofitableAfterBe := Some(false)))
      else (NoExit, s2)
    else if s.beArmed == Some(true) then AfterBreakEven(ratio, v, profit, s)
    else (NoExit, s)
  }

  /** The loss manager's rules once break-even is armed. */
  function AfterBreakEven(ratio: real, v: PositionView, profit: Conv, s: PosState): (Outcome, PosState)
    requires profit != Missing
  {
    if profit.Invalid? then (Raise, s)
    else if profit.x < 0.0 && s.wasUnprofitableAfterBe.None? then (Raise, s)
    else
      var s2 := if profit.x < 0.0 && !s.wasUnprofitableAfterBe.value
                then s.(wasUnprofitableAfterBe := Some(true), unprofitProfit := Some(profit.x)) else s;
      if profit.x < 0.0 && profit.x <= DropProfitAfterBe then
        (Exit(CloseAction(v.ticket, v.symbol, v.side, v.volume, ratio, ProfitDropAfterBe)), s2)
      else if s2.wasUnprofitableAfterBe.None? then (Raise, s2)
      else if s2.wasUnprofitableAfterBe.value && 0.0 < profit.x < RecoveryBand then
        (Exit(CloseAction(v.ticket, v.symbol, v.side, v.volume, ratio, BeRecoveredAfterUnprofit)), s2)
      else (NoExit, s2)
  }

  /** The rules of the loss manager once the position has been read. */
  method LossRules(ratio: real, v: PositionView, profit: Conv, be: Try<bool>, st0: PosState)
    returns (out: Outcome, st: PosState)
    requires profit != Missing
    ensures LossSpec(ratio, v, profit, be, st0, out, st)
    ensures (out, st) == LossStep(ratio, v, profit, be, st0)
  {
    st := ArmingInit(st0);
    if st.beArmed == Some(false) {
      if st.beArmingTicks.None? {
        return Raise, st;
      }
      if st.beArmingTicks.value < BeArmingTicks {
        st := st.(beArmingTicks := Some(st.beArmingTicks.value + 1));
        if profit.Invalid? {
          return Raise, st;
        }
        if profit.x <= DropProfit {
          return Exit(CloseAction(v.ticket, v.symbol, v.side, v.volume, ratio, ProfitDrop)), st;
        }
        if be.Raised? {
          return Raise, st;
        }
        if be.value {
          st := st.(beArmed := Some(true), wasProfitableAfterUnprofit := Some(false), wasUnprofitableAfterBe := Some(false));
          return NoExit, st;
        }
      }
    }
    if st.beArmed == Some(true) {
      if profit.Invalid? {
        return Raise, st;
      }
      if profit.x < 0.0 {
        if st.wasUnprofitableAfterBe.None? {
          return Raise, st;
        }
        if !st.wasUnprofitableAfterBe.value {
          st := st.(wasUnprofitableAfterBe := Some(true), unprofitProfit := Some(profit.x));
        }
        if profit.x <= DropProfitAfterBe {
          return Exit(CloseAction(v.ticket, v.symbol, v.side, v.volume, ratio, ProfitDropAfterBe)), st;
        }
      }
      if st.wasUnprofitableAfterBe.None? {
        return Raise, st;
      }
      if st.wasUnprofitableAfterBe.value && 0.0 < profit.x < RecoveryBand {
        return Exit(CloseAction(v.ticket, v.symbol, v.side, v.volume, ratio, BeRecoveredAfterUnprofit)), st;
      }
      return NoExit, st;
    }
    return NoExit, st;
  }

  /** `check_exit_on_tick` of the loss manager as a function of the position and the ticket's state. */
  function LossCheck(ratio: real, pos: Record, st0: PosState): (Outcome, PosState) {
    match ReadPosition(pos)
    case ReadRaised => (Raise, st0)
    case Incomplete => (NoExit, st0)
    case Complete(v) => LossStep(ratio, v, AttrProfit(pos), IsBreakEven(pos), st0)
  }

  /**
   * `LossExitManager.check_exit_on_tick`: an incomplete position gives no
   * decision and leaves the state as it is; otherwise the rules above.
   */
  method LossCheckExitOnTick(ratio: real, pos: Record, st0: PosState) returns (out: Outcome, st: PosState)
    ensures (out, st) == LossCheck(ratio, pos, st0)
    ensures ReadPosition(pos).ReadRaised? ==> out == Raise && st == st0
    ensures ReadPosition(pos).Incomplete? ==> out == NoExit && st == st0
    ensures ReadPosition(pos).Complete? ==>
              LossSpec(ratio, ReadPosition(pos).view, AttrProfit(pos), IsBreakEven(pos), st0, out, st)
    ensures out.Exit? ==>
              ReadPosition(pos).Complete? && out.action.reason in {ProfitDrop, ProfitDropAfterBe, BeRecoveredAfterUnprofit} &&
              var v := ReadPosition(pos).view;
              out.action == CloseAction(v.ticket, v.symbol, v.side, v.volume, ratio, out.action.reason)
  {
    match ReadPosition(pos)
    case ReadRaised => return Raise, st0;
    case Incomplete => return NoExit, st0;
    case Complete(v) => out, st := LossRules(ratio, v, AttrProfit(pos), IsBreakEven(pos), st0);
  }

  // ---------------------------------------------------------------------
  // Profit manager
  // ---------------------------------------------------------------------

  /**
   * What one call of the profit manager promises for a complete position
   * `v`, tick value `price` (raw), manager profit `profit` and break-even
   * reading `be`.
   */
  ghost predicate ProfitSpec(ratio: real, v: PositionView, price: Value, profit: Conv, be: Try<bool>,
                             st0: PosState, out: Outcome, st: PosState)
  {
    var armed0 := st0.beArmed == Some(true);
    // The only exit: a pull-back of more than the threshold from the best profit.
    (out.Exit? ==> out.action == CloseAction(v.ticket, v.symbol, v.side, v.volume, ratio, TrailingBreachGt5c) &&
                   profit.Parsed? && st.bestProfit.Some? &&
                   0.0 < profit.x < st.bestProfit.value && st.bestProfit.value - profit.x > BreachThreshold) &&
    // Not armed and not at break-even: count the tick, remember the price, decide nothing.
    (!armed0 && be == Ok(false) ==>
       (out == NoExit <==> FloatOf(price).Some?) && out != Exit(CloseAction(v.ticket, v.symbol, v.side, v.volume, ratio, TrailingBreachGt5c)) &&
       st.ticksSeen == st0.ticksSeen + 1 &&
       (FloatOf(price).Some? ==> st == st0.(ticksSeen := st0.ticksSeen + 1, prevPrice := FloatOf(price).value))) &&
    // Arming records the tick count and the price at which it happened.
    (!armed0 && be == Ok(true) ==>
       st.beArmed == Some(true) && st.beArmedTick == Some(st0.ticksSeen) && st.beArmedPrice == Some(price)) &&
    // Arming is never undone.
    (armed0 ==> st.beArmed == Some(true)) &&
    // The best profit never decreases, and a new best resets the breach counter.
    (st0.bestProfit.Some? && st.bestProfit.Some? ==> st.bestProfit.value >= st0.bestProfit.value) &&
    (st0.bestProfit.Some? && profit.Parsed? && profit.x > st0.bestProfit.value && (armed0 || be == Ok(true)) ==>
       st.bestProfit == Some(profit.x) && st.breachTicks == Some(0)) &&
    // A small pull-back counts a breach tick, no pull-back resets the count.
    ((armed0 || be == Ok(true)) && profit.Parsed? && st0.bestProfit.Some? && st0.breachTicks.Some? &&
     0.0 < profit.x < st0.bestProfit.value && st0.bestProfit.value - profit.x <= BreachThreshold ==>
       st.breachTicks == Some(st0.breachTicks.value + 1) && out != Exit(CloseAction(v.ticket, v.symbol, v.side, v.volume, ratio, TrailingBreachGt5c))) &&
    ((armed0 || be == Ok(true)) && profit.Parsed? && st.bestProfit.Some? && !(0.0 < profit.x < st.bestProfit.value) ==>
       st.breachTicks == Some(0)) &&
    // The no-exit path of an armed position remembers the price and counts the tick.
    ((armed0 || be == Ok(true)) && out == NoExit ==>
       FloatOf(price).Some? && st.prevPrice == FloatOf(price).value && st.ticksSeen == st0.ticksSeen + 1) &&
    // A pull-back of more than the threshold below the best profit so far closes the position.
    ((armed0 || be == Ok(true)) && profit.Parsed? && st0.bestProfit.Some? &&
     0.0 < profit.x < st0.bestProfit.value && st0.bestProfit.value - profit.x > BreachThreshold ==>
       out == Exit(CloseAction(v.ticket, v.symbol, v.side, v.volume, ratio, TrailingBreachGt5c))) &&
    (out == Raise ==> be.Raised? || profit.Invalid? || FloatOf(price).None?)
  }

  /**
   * The profit manager's decision and new state as a function: arming, then
   * the trailing of the best profit.
   */
  function ProfitStep(ratio: real, v: PositionView, price: Value, profit: Conv, be: Try<bool>, st0: PosState): (Outcome, PosState)
    requires profit != Missing
  {
    if st0.beArmed != Some(true) && be.Raised? then (Raise, st0)
    else if st0.beArmed != Some(true) && !be.value then
      var s := st0.(ticksSeen := st0.ticksSeen + 1);
      if FloatOf(price).None? then (Raise, s) else (NoExit, s.(prevPrice := FloatOf(price).value))
    else
      var s := if st0.beArmed != Some(true)
               then st0.(beArmed := Some(true), beArmedTick := Some(st0.ticksSeen), beArmedPrice := Some(price))
               else st0;
      if profit.Invalid? then (Raise, s) else Trail(ratio, v, price, profit.x, s)
  }

  /** The trailing part of the profit manager for profit `x` once break-even is armed. */
  function Trail(ratio: real, v: PositionView, price: Value, x: real, s: PosState): (Outcome, PosState) {
    var s2 := if s.bestProfit.None? || x > s.bestProfit.value then s.(bestProfit := Some(x), breachTicks := Some(0)) else s;
    var best := s2.bestProfit.value;
    if 0.0 < x < best && best - x > BreachThreshold then
      (Exit(CloseAction(v.ticket, v.symbol, v.side, v.volume, ratio, TrailingBreachGt5c)), s2)
    else
      var s3 := if 0.0 < x < best then s2.(breachTicks := Some(s2.breachTicks.GetOr(0) + 1)) else s2.(breachTicks := Some(0));
      if FloatOf(price).None? then (Raise, s3)
      else (NoExit, s3.(prevPrice := FloatOf(price).value, ticksSeen := s3.ticksSeen + 1))
  }

  /** The rules of the profit manager once the position has been read. */
  method ProfitRules(ratio: real, v: PositionView, price: Value, profit: Conv, be: Try<bool>, st0: PosState)
    returns (out: Outcome, st: PosState)
    requires profit != Missing
    ensures (out, st) == ProfitStep(ratio, v, price, profit, be, st0)
    ensures ProfitSpec(ratio, v, price, profit, be, st0, out, st)
  {
    ProfitStepMeetsSpec(ratio, v, price, profit, be, st0);
    st := st0;
    if st.beArmed != Some(true) {
      if be.Raised? {
        return Raise, st;
      }
      if be.value {
        st := st.(beArmed := Some(true), beArmedTick := Some(st.ticksSeen), beArmedPrice := Some(price));
      } else {
        st := st.(ticksSeen := st.ticksSeen + 1);
        var p := FloatOf(price);
        if p.None? {
          return Raise, st;
        }
        st := st.(prevPrice := p.value);
        return NoExit, st;
      }
    }
    if profit.Invalid? {
      return Raise, st;
    }
    out, st := TrailRules(ratio, v, price, profit.x, st);
  }

  /** The trailing of the best profit, once break-even is armed, for profit `x`. */
  method TrailRules(ratio: real, v: PositionView, price: Value, x: real, s: PosState) returns (out: Outcome, st: PosState)
    ensures (out, st) == Trail(ratio, v, price, x, s)
  {
    st := s;
    if st.bestProfit.None? {
      st := st.(bestProfit := Some(x), breachTicks := Some(0));
    }
    if x > st.bestProfit.value {
      st := st.(bestProfit := Some(x), breachTicks := Some(0));
    }
    if 0.0 < x < st.bestProfit.value {
      if st.bestProfit.value - x > BreachThreshold {
        return Exit(CloseAction(v.ticket, v.symbol, v.side, v.volume, ratio, TrailingBreachGt5c)), st;
      }
      st := st.(breachTicks := Some(st.breachTicks.GetOr(0) + 1));
    } else {
      st := st.(breachTicks := Some(0));
    }
    var p := FloatOf(price);
    if p.None? {
      return Raise, st;
    }
    st := st.(prevPrice := p.value, ticksSeen := st.ticksSeen + 1);
    return NoExit, st;
  }

  /** The profit manager's function keeps every promise of `ProfitSpec`. */
  lemma ProfitStepMeetsSpec(ratio: real, v: PositionView, price: Value, profit: Conv, be: Try<bool>, st0: PosState)
    requires profit != Missing
    ensures var r := ProfitStep(ratio, v, price, profit, be, st0); ProfitSpec(ratio, v, price, profit, be, st0, r.0, r.1)
  {
    if st0.beArmed != Some(true) && be.Raised? {
      assert ProfitStep(ratio, v, price, profit, be, st0) == (Raise, st0);
    } else if st0.beArmed != Some(true) && !be.value {
      ProfitIdleMeetsSpec(ratio, v, price, profit, be, st0);
    } else {
      ProfitArmedMeetsSpec(ratio, v, price, profit, be, st0);
    }
  }

  /** Neither armed nor at break-even: the profit manager only counts the tick and remembers the price. */
  lemma ProfitIdleMeetsSpec(ratio: real, v: PositionView, price: Value, profit: Conv, be: Try<bool>, st0: PosState)
    requires profit != Missing && st0.beArmed != Some(true) && be == Ok(false)
    ensures var r := ProfitStep(ratio, v, price, profit, be, st0); ProfitSpec(ratio, v, price, profit, be, st0, r.0, r.1)
  {
    var s := st0.(ticksSeen := st0.ticksSeen + 1);
    assert ProfitStep(ratio, v, price, profit, be, st0) ==
           if FloatOf(price).None? then (Raise, s) else (NoExit, s.(prevPrice := FloatOf(price).value));
  }

  /** Armed, or arming now: the profit manager trails the best profit. */
  lemma ProfitArmedMeetsSpec(ratio: real, v: PositionView, price: Value, profit: Conv, be: Try<bool>, st0: PosState)
    requires profit != Missing && (st0.beArmed == Some(true) || be == Ok(true))
    ensures var r := ProfitStep(ratio, v, price, profit, be, st0); ProfitSpec(ratio, v, price, profit, be, st0, r.0, r.1)
  {
    var s := if st0.beArmed != Some(true)
             then st0.(beArmed := Some(true), beArmedTick := Some(st0.ticksSeen), beArmedPrice := Some(price))
             else st0;
    if profit.Parsed? {
      TrailKeepsBest(ratio, v, price, profit.x, s);
      assert ProfitStep(ratio, v, price, profit, be, st0) == Trail(ratio, v, price, profit.x, s);
    } else {
      assert ProfitStep(ratio, v, price, profit, be, st0) == (Raise, s);
    }
  }

  /** The trailing step never lowers the best profit and exits exactly on a large pull-back. */
  lemma TrailKeepsBest(ratio: real, v: PositionView, price: Value, x: real, s: PosState)
    ensures var r := Trail(ratio, v, price, x, s);
            r.1.bestProfit.Some? && r.1.beArmed == s.beArmed &&
            (s.bestProfit.Some? ==> r.1.bestProfit.value >= s.bestProfit.value) &&
            (r.0.Exit? <==> 0.0 < x < r.1.bestProfit.value && r.1.bestProfit.value - x > BreachThreshold)
  {
  }

  /** `check_exit_on_tick` of the profit manager as a function of the position, the tick and the ticket's state. */
  function ProfitCheck(ratio: real, profitExitsOnTick: bool, pos: Record, tick: Option<Record>, st0: PosState): (Outcome, PosState) {
    if !profitExitsOnTick then (NoExit, st0)
    else match ReadPosition(pos)
      case ReadRaised => (Raise, st0)
      case Incomplete => (NoExit, st0)
      case Complete(v) => ProfitStep(ratio, v, TickValue(tick, CloseKey(v.side)), AttrProfit(pos), IsBreakEven(pos), st0)
  }

  /**
   * `ProfitExitManager.check_exit_on_tick`: switched off, or an incomplete
   * position, gives no decision and leaves the state as it is.
   */
  method ProfitCheckExitOnTick(ratio: real, profitExitsOnTick: bool, pos: Record, tick: Option<Record>, st0: PosState)
    returns (out: Outcome, st: PosState)
    ensures (out, st) == ProfitCheck(ratio, profitExitsOnTick, pos, tick, st0)
    ensures !profitExitsOnTick ==> out == NoExit && st == st0
    ensures profitExitsOnTick && ReadPosition(pos).ReadRaised? ==> out == Raise && st == st0
    ensures profitExitsOnTick && ReadPosition(pos).Incomplete? ==> out == NoExit && st == st0
    ensures profitExitsOnTick && ReadPosition(pos).Complete? ==>
              ProfitSpec(ratio, ReadPosition(pos).view, TickValue(tick, CloseKey(ReadPosition(pos).view.side)),
                         AttrProfit(pos), IsBreakEven(pos), st0, out, st)
    ensures out.Exit? ==>
              ReadPosition(pos).Complete? &&
              var v := ReadPosition(pos).view;
              out.action == CloseAction(v.ticket, v.symbol, v.side, v.volume, ratio, TrailingBreachGt5c)
  {
    if !profitExitsOnTick {
      return NoExit, st0;
    }
    match ReadPosition(pos)
    case ReadRaised => return Raise, st0;
    case Incomplete => return NoExit, st0;
    case Complete(v) =>
      out, st := ProfitRules(ratio, v, TickValue(tick, CloseKey(v.side)), AttrProfit(pos), IsBreakEven(pos), st0);
  }
}
