// The tick-driven exit engine: per open position it keeps a small state
// (anchor, previous price, ticks seen, the ever-favourable latch and an
// unfavourable-tick counter) and, on every tick, applies the soft stops,
// early abort, reversal-in-profit and anchor/buffer trailing, in that order.

module TickExit {
  import opened Base
  import opened ExitShared
  import opened Broker
  import opened Market

  /** The engine's settings (`ExitTradeConfig`). */
  datatype TickConfig = TickConfig(
    bufferPips: real,
    bufferStartTick: int,
    epsPips: real,
    exitOnFirstTickNotFavorable: bool,
    exitOnFirstReversalInProfit: bool,
    treatFlatAsReversal: bool,
    maxUnfavorableTicks: int,
    maxLossMoney: real,
    maxLossPrice: real,
    maxLossPips: real,
    minProfitPips: real,
    earlyAbortEnabled: bool,
    earlyAbortTicks: int,
    earlyAbortLossPips: real,
    graceTicks: int)

  /** The settings as the application configures them. */
  const DefaultTickConfig: TickConfig :=
    TickConfig(2.0, 3, 0.0, false, true, false, 0, 10.0, 0.0, 0.0, 2.0, true, 5, 2.0, 5)

  /** `_PosState`. */
  datatype TickState = TickState(
    anchor: real,
    prevPrice: real,
    ticksSeen: int,
    everFavorable: bool,
    unfavorableTicks: int)

  function Max(a: int, b: int): int {
    if a >= b then a else b
  }

  // ---------------------------------------------------------------------
  // What one evaluation reads
  // ---------------------------------------------------------------------

  /**
   * The tick used for a symbol: the given tick, unless it is missing or
   * names another symbol, in which case the terminal's latest tick for the
   * symbol (possibly none).
   */
  function TickFor(w: World, tick: Option<Record>, symbol: string): (t: Option<Record>)
    ensures tick.Some? && !Truthy(GetAttr(tick.value, "symbol")) ==> t == tick
    ensures tick.Some? && Truthy(GetAttr(tick.value, "symbol")) && Str(GetAttr(tick.value, "symbol")) == symbol ==> t == tick
    ensures tick.None? ==> (t.Some? <==> symbol in w.ticks)
  {
    match tick
    case None => if symbol in w.ticks then Some(w.ticks[symbol]) else None
    case Some(r) =>
      var ts := GetAttr(r, "symbol");
      if Truthy(ts) && Str(ts) != symbol then
        (if symbol in w.ticks then Some(w.ticks[symbol]) else None)
      else tick
  }

  /**
   * `_tick_price_for_position_side`: the closeable price (bid for a BUY,
   * ask for a SELL); no tick at all reads as a missing price.
   */
  function ClosingPrice(w: World, tick: Option<Record>, v: PositionView): (c: Conv)
    ensures TickFor(w, tick, v.symbol).None? ==> c == Missing
    ensures TickFor(w, tick, v.symbol).Some? ==>
              c == FloatOrNone(GetAttr(TickFor(w, tick, v.symbol).value, if v.side == Buy then "bid" else "ask"))
  {
    match TickFor(w, tick, v.symbol)
    case None => Missing
    case Some(t) => FloatOrNone(GetAttr(t, if v.side == Buy then "bid" else "ask"))
  }

  /** Floating profit: the position's own field, else the terminal's figure for the ticket. */
  function ProfitOf(w: World, pos: Record, ticket: Value): (c: Conv)
    ensures PosProfit(pos).Parsed? ==> c == PosProfit(pos)
    ensures PosProfit(pos).Invalid? ==> c == Invalid
    ensures PosProfit(pos).Missing? ==> (c.Parsed? <==> ticket in w.profitByTicket)
  {
    match PosProfit(pos)
    case Parsed(x) => Parsed(x)
    case Invalid => Invalid
    case Missing => if ticket in w.profitByTicket then Parsed(w.profitByTicket[ticket]) else Missing
  }

  /** What the first part of an evaluation reads: nothing usable, an exception, or a position and its price. */
  datatype Observation = Skip | Failed | Seen(view: PositionView, price: real)

  /**
   * Reading a position and its closeable price: an incomplete position or a
   * missing price is skipped, a value float() refuses raises.
   */
  function Observe(w: World, tick: Option<Record>, pos: Record): (o: Observation)
    ensures o.Failed? <==> ReadPosition(pos).ReadRaised? ||
                           (ReadPosition(pos).Complete? && ClosingPrice(w, tick, ReadPosition(pos).view).Invalid?)
    ensures o.Skip? <==> ReadPosition(pos).Incomplete? ||
                         (ReadPosition(pos).Complete? && ClosingPrice(w, tick, ReadPosition(pos).view).Missing?)
    ensures o.Seen? ==> o.view == ReadPosition(pos).view && ClosingPrice(w, tick, o.view) == Parsed(o.price)
  {
    match ReadPosition(pos)
    case ReadRaised => Failed
    case Incomplete => Skip
    case Complete(v) =>
      match ClosingPrice(w, tick, v)
      case Invalid => Failed
      case Missing => Skip
      case Parsed(p) => Seen(v, p)
  }

  // ---------------------------------------------------------------------
  // Rule conditions
  // ---------------------------------------------------------------------

  /** The first observation of a ticket is not favourable and such a position closes at once. */
  predicate FirstTickExit(cfg: TickConfig, w: World, v: PositionView, price: real, st0: Option<TickState>) {
    st0.None? && cfg.exitOnFirstTickNotFavorable && !Beyond(v.side, v.entry, price, PipsToPrice(w, v.symbol, cfg.epsPips))
  }

  /** The state once this tick is counted: a new ticket starts at its first observation, a known one counts one more tick. */
  function Counted(cfg: TickConfig, w: World, v: PositionView, price: real, st0: Option<TickState>): (s: TickState)
    ensures s.ticksSeen == if st0.None? then 1 else st0.value.ticksSeen + 1
  {
    match st0
    case None =>
      var favorable := Beyond(v.side, v.entry, price, PipsToPrice(w, v.symbol, cfg.epsPips));
      TickState(price, price, 1, favorable, if favorable then 0 else 1)
    case Some(s) => s.(ticksSeen := s.ticksSeen + 1)
  }

  /** The money stop is armed: enabled and past its grace period. */
  predicate MoneyArmed(cfg: TickConfig, ticksSeen: int) {
    cfg.maxLossMoney > 0.0 && (cfg.graceTicks <= 0 || ticksSeen >= cfg.graceTicks)
  }

  /** The money stop: armed, and the profit at or below the loss limit. */
  predicate MoneyStop(cfg: TickConfig, ticksSeen: int, profit: Conv) {
    MoneyArmed(cfg, ticksSeen) && profit.Parsed? && profit.x <= -cfg.maxLossMoney
  }

  /** The stop on a raw price distance against the entry. */
  predicate PriceStop(cfg: TickConfig, v: PositionView, price: real) {
    cfg.maxLossPrice > 0.0 && AtOrPast(v.side, v.entry, price, cfg.maxLossPrice)
  }

  /** The stop in pips against the entry, used only when the price stop is off. */
  predicate PipStop(cfg: TickConfig, w: World, v: PositionView, price: real) {
    cfg.maxLossPrice <= 0.0 && cfg.maxLossPips > 0.0 &&
    AtOrPast(v.side, v.entry, price, PipsToPrice(w, v.symbol, cfg.maxLossPips))
  }

  /** Early abort: a position never favourable, after enough ticks, far enough against the entry. */
  predicate AbortStop(cfg: TickConfig, w: World, v: PositionView, price: real, s: TickState) {
    cfg.earlyAbortEnabled && cfg.earlyAbortTicks > 0 && cfg.earlyAbortLossPips > 0.0 &&
    !s.everFavorable && s.ticksSeen >= cfg.earlyAbortTicks &&
    PipsToPrice(w, v.symbol, 1.0) > 0.0 &&
    Adverse(v.side, v.entry, price) / PipsToPrice(w, v.symbol, 1.0) >= cfg.earlyAbortLossPips
  }

  /** The first tick against the previous one while the price is a minimum profit beyond the entry. */
  predicate ReversalStop(cfg: TickConfig, w: World, v: PositionView, price: real, s: TickState) {
    cfg.exitOnFirstReversalInProfit && Reversal(v.side, s.prevPrice, price, cfg.treatFlatAsReversal) &&
    Beyond(v.side, v.entry, price, PipsToPrice(w, v.symbol, cfg.minProfitPips))
  }

  /**
   * The stop that closes a counted position, the earliest in the order the
   * engine checks them: money, price, pips, early abort, reversal in profit.
   */
  function Stop(cfg: TickConfig, w: World, v: PositionView, price: real, profit: Conv, s: TickState): (r: Option<Reason>)
    ensures MoneyStop(cfg, s.ticksSeen, profit) ==> r == Some(MaxLossMoney(cfg.maxLossMoney))
    ensures !MoneyStop(cfg, s.ticksSeen, profit) && PriceStop(cfg, v, price) ==> r == Some(MaxLossPrice(cfg.maxLossPrice))
    ensures !MoneyStop(cfg, s.ticksSeen, profit) && !PriceStop(cfg, v, price) && PipStop(cfg, w, v, price) ==>
              r == Some(MaxLossPips(cfg.maxLossPips))
    ensures (!MoneyStop(cfg, s.ticksSeen, profit) && !PriceStop(cfg, v, price) && !PipStop(cfg, w, v, price) &&
             AbortStop(cfg, w, v, price, s)) ==> r == Some(EarlyAbort(cfg.earlyAbortTicks, cfg.earlyAbortLossPips))
    ensures (!MoneyStop(cfg, s.ticksSeen, profit) && !PriceStop(cfg, v, price) && !PipStop(cfg, w, v, price) &&
             !AbortStop(cfg, w, v, price, s) && ReversalStop(cfg, w, v, price, s)) ==> r == Some(FirstReversalInProfit)
    ensures r.None? <==> !MoneyStop(cfg, s.ticksSeen, profit) && !PriceStop(cfg, v, price) && !PipStop(cfg, w, v, price) &&
                         !AbortStop(cfg, w, v, price, s) && !ReversalStop(cfg, w, v, price, s)
  {
    if MoneyStop(cfg, s.ticksSeen, profit) then Some(MaxLossMoney(cfg.maxLossMoney))
    else if PriceStop(cfg, v, price) then Some(MaxLossPrice(cfg.maxLossPrice))
    else if PipStop(cfg, w, v, price) then Some(MaxLossPips(cfg.maxLossPips))
    else if AbortStop(cfg, w, v, price, s) then Some(EarlyAbort(cfg.earlyAbortTicks, cfg.earlyAbortLossPips))
    else if ReversalStop(cfg, w, v, price, s) then Some(FirstReversalInProfit)
    else None
  }

  /** The trailing bookkeeping: the previous price, the favourable latch and the unfavourable counter. */
  function Latched(cfg: TickConfig, w: World, v: PositionView, price: real, s: TickState): (l: TickState)
    ensures l.anchor == s.anchor && l.ticksSeen == s.ticksSeen && l.prevPrice == price
    ensures l.everFavorable <==> s.everFavorable || Beyond(v.side, v.entry, price, PipsToPrice(w, v.symbol, cfg.epsPips))
    ensures l.unfavorableTicks == if l.everFavorable then s.unfavorableTicks else s.unfavorableTicks + 1
  {
    var st := s.(prevPrice := price);
    if Beyond(v.side, v.entry, price, PipsToPrice(w, v.symbol, cfg.epsPips)) then st.(everFavorable := true)
    else if !st.everFavorable then st.(unfavorableTicks := st.unfavorableTicks + 1)
    else st
  }

  /** Too many unfavourable ticks for a position never favourable. */
  predicate UnfavorableStop(cfg: TickConfig, l: TickState) {
    cfg.maxUnfavorableTicks > 0 && !l.everFavorable && l.unfavorableTicks >= cfg.maxUnfavorableTicks
  }

  /** The price has moved beyond the anchor, which then follows it. */
  predicate AnchorMoves(cfg: TickConfig, w: World, v: PositionView, price: real, l: TickState) {
    Beyond(v.side, l.anchor, price, PipsToPrice(w, v.symbol, cfg.epsPips))
  }

  /** A buffer breach: the anchor stays, enough ticks, a full buffer back from the anchor, and still in profit. */
  predicate BufferStop(cfg: TickConfig, w: World, v: PositionView, price: real, l: TickState) {
    !AnchorMoves(cfg, w, v, price, l) && l.ticksSeen >= Max(1, cfg.bufferStartTick) &&
    AtOrPast(v.side, l.anchor, price, PipsToPrice(w, v.symbol, cfg.bufferPips)) &&
    Beyond(v.side, v.entry, price, PipsToPrice(w, v.symbol, cfg.minProfitPips))
  }

  /** The trailing rules as a function of a counted state `s`: the outcome and the new state. */
  function Trailing(cfg: TickConfig, w: World, v: PositionView, price: real, s: TickState): (Outcome, TickState) {
    var l := Latched(cfg, w, v, price, s);
    if UnfavorableStop(cfg, l) then (Exit(CloseAll(v, MaxUnfavorableTicks(cfg.maxUnfavorableTicks))), l)
    else if AnchorMoves(cfg, w, v, price, l) then (NoExit, l.(anchor := price))
    else if BufferStop(cfg, w, v, price, l) then (Exit(CloseAll(v, BufferBreach)), l)
    else (NoExit, l)
  }

  /**
   * All the rules of one evaluation as a function: the first-tick exit, the
   * money stop's exception on a non-numeric profit, the stops, then the
   * trailing rules.
   */
  function Rules(cfg: TickConfig, w: World, v: PositionView, price: real, profit: Conv, st0: Option<TickState>)
    : (Outcome, Option<TickState>)
  {
    if FirstTickExit(cfg, w, v, price, st0) then (Exit(CloseAll(v, FirstTickNotFavorable)), None)
    else
      var s := Counted(cfg, w, v, price, st0);
      if MoneyArmed(cfg, s.ticksSeen) && profit.Invalid? then (Raise, Some(s))
      else match Stop(cfg, w, v, price, profit, s)
        case Some(reason) => (Exit(CloseAll(v, reason)), Some(s))
        case None => var t := Trailing(cfg, w, v, price, s); (t.0, Some(t.1))
  }

  /** A tick against the previous one: strictly, or also flat when flat counts as a reversal. */
  predicate Reversal(side: Side, prev: real, price: real, flatCounts: bool) {
    if flatCounts then (if side == Buy then price <= prev else price >= prev)
    else (if side == Buy then price < prev else price > prev)
  }

  /** Distance the price stands against the entry, zero when it is not against it. */
  function Adverse(side: Side, entry: real, price: real): (d: real)
    ensures d >= 0.0
    ensures d > 0.0 <==> AtOrPast(side, entry, price, 0.0) && price != entry
  {
    if side == Buy then (if entry - price > 0.0 then entry - price else 0.0)
    else (if price - entry > 0.0 then price - entry else 0.0)
  }

  /** The exit instruction of this engine: the opposite side, the full volume. */
  function CloseAll(v: PositionView, reason: Reason): (a: ExitAction)
    ensures a.side == Opposite(v.side) && a.volume == v.volume
    ensures a.ticket == v.ticket && a.symbol == v.symbol && a.reason == reason
  {
    ExitAction(v.ticket, v.symbol, Opposite(v.side), v.volume, reason)
  }

  // ---------------------------------------------------------------------
  // Evaluation of one position
  // ---------------------------------------------------------------------

  /** The rules fire in the engine's order, each when its conditions hold and no earlier rule did. */
  lemma RulesInOrder(cfg: TickConfig, w: World, v: PositionView, price: real, profit: Conv, st0: Option<TickState>,
                     out: Outcome, st: Option<TickState>)
    requires (out, st) == Rules(cfg, w, v, price, profit, st0)
    ensures FirstTickExit(cfg, w, v, price, st0) ==> out == Exit(CloseAll(v, FirstTickNotFavorable)) && st.None?
    ensures !FirstTickExit(cfg, w, v, price, st0) ==> st.Some?
    ensures (!FirstTickExit(cfg, w, v, price, st0) && MoneyArmed(cfg, Counted(cfg, w, v, price, st0).ticksSeen) &&
             profit.Invalid?) ==> out == Raise && st == Some(Counted(cfg, w, v, price, st0))
    ensures !FirstTickExit(cfg, w, v, price, st0) && !profit.Invalid? &&
            Stop(cfg, w, v, price, profit, Counted(cfg, w, v, price, st0)).Some? ==>
              out == Exit(CloseAll(v, Stop(cfg, w, v, price, profit, Counted(cfg, w, v, price, st0)).value)) &&
              st == Some(Counted(cfg, w, v, price, st0))
    ensures !FirstTickExit(cfg, w, v, price, st0) && !profit.Invalid? &&
            Stop(cfg, w, v, price, profit, Counted(cfg, w, v, price, st0)).None? ==>
              (out, st.value) == Trailing(cfg, w, v, price, Counted(cfg, w, v, price, st0))
  {
  }

  /** How one evaluation moves the per-ticket state. */
  lemma RulesState(cfg: TickConfig, w: World, v: PositionView, price: real, profit: Conv, st0: Option<TickState>,
                   out: Outcome, st: Option<TickState>)
    requires (out, st) == Rules(cfg, w, v, price, profit, st0)
    // First observation.
    ensures st0.None? && st.Some? ==> st.value.ticksSeen == 1 && st.value.prevPrice == price && st.value.anchor == price
    // A known ticket counts one more tick on every observation.
    ensures st0.Some? ==> st.Some? && st.value.ticksSeen == st0.value.ticksSeen + 1
    // The favourable latch, the unfavourable counter and the anchor.
    ensures st0.Some? && st.Some? ==>
              (st0.value.everFavorable ==> st.value.everFavorable) &&
              (st0.value.everFavorable ==> st.value.unfavorableTicks == st0.value.unfavorableTicks) &&
              (st.value.unfavorableTicks == st0.value.unfavorableTicks ||
               st.value.unfavorableTicks == st0.value.unfavorableTicks + 1)
    ensures st0.Some? && st.Some? && st.value.anchor != st0.value.anchor ==>
              st.value.anchor == price && Beyond(v.side, st0.value.anchor, price, PipsToPrice(w, v.symbol, cfg.epsPips))
    // Once past the reversal check without an exit, the previous price is the current one.
    ensures out == NoExit ==> st.Some? && st.value.prevPrice == price
  {
    if !FirstTickExit(cfg, w, v, price, st0) {
      var s := Counted(cfg, w, v, price, st0);
      if !(MoneyArmed(cfg, s.ticksSeen) && profit.Invalid?) && Stop(cfg, w, v, price, profit, s).None? {
        var l := Latched(cfg, w, v, price, s);
        assert st.value == l || st.value == l.(anchor := price);
      }
    }
  }

  /** What each exit reason of the stops says about the position, its price and its state. */
  lemma RulesReasons(cfg: TickConfig, w: World, v: PositionView, price: real, profit: Conv, st0: Option<TickState>,
                     out: Outcome, st: Option<TickState>)
    requires (out, st) == Rules(cfg, w, v, price, profit, st0)
    // Every exit closes the whole position on the opposite side.
    ensures out.Exit? ==> out.action == CloseAll(v, out.action.reason)
    ensures out == Raise ==> profit.Invalid?
    ensures out.Exit? && out.action.reason == FirstTickNotFavorable ==> st0.None? && st.None?
    ensures out.Exit? && out.action.reason.MaxLossMoney? ==>
              st.Some? && out.action.reason.limit == cfg.maxLossMoney && MoneyStop(cfg, st.value.ticksSeen, profit)
    // The price stop, and the pip stop only when the price stop is off.
    ensures out.Exit? && out.action.reason.MaxLossPrice? ==>
              out.action.reason.distance == cfg.maxLossPrice > 0.0 && AtOrPast(v.side, v.entry, price, cfg.maxLossPrice)
    ensures out.Exit? && out.action.reason.MaxLossPips? ==>
              cfg.maxLossPrice <= 0.0 && out.action.reason.pips == cfg.maxLossPips > 0.0 &&
              AtOrPast(v.side, v.entry, price, PipsToPrice(w, v.symbol, cfg.maxLossPips))
    // Early abort only for a position never favourable, after enough ticks, far enough against.
    ensures out.Exit? && out.action.reason.EarlyAbort? ==>
              st.Some? && out.action.reason.ticks == cfg.earlyAbortTicks &&
              out.action.reason.lossPips == cfg.earlyAbortLossPips && AbortStop(cfg, w, v, price, st.value)
    // Reversal in profit compares against the previous price, which is not yet updated.
    ensures out.Exit? && out.action.reason == FirstReversalInProfit ==>
              st.Some? && ReversalStop(cfg, w, v, price, st.value)
    // The trailing exits.
    ensures out.Exit? && out.action.reason.MaxUnfavorableTicks? ==>
              st.Some? && out.action.reason.tickLimit == cfg.maxUnfavorableTicks && UnfavorableStop(cfg, st.value)
    ensures out.Exit? && out.action.reason == BufferBreach ==>
              st.Some? && st.value.ticksSeen >= Max(1, cfg.bufferStartTick) &&
              AtOrPast(v.side, st.value.anchor, price, PipsToPrice(w, v.symbol, cfg.bufferPips)) &&
              Beyond(v.side, v.entry, price, PipsToPrice(w, v.symbol, cfg.minProfitPips))
    // No other reasons.
    ensures out.Exit? ==>
              (out.action.reason in {FirstTickNotFavorable, FirstReversalInProfit, BufferBreach} ||
               out.action.reason.MaxLossMoney? || out.action.reason.MaxLossPrice? || out.action.reason.MaxLossPips? ||
               out.action.reason.EarlyAbort? || out.action.reason.MaxUnfavorableTicks?)
  {
    if FirstTickExit(cfg, w, v, price, st0) {
      assert out == Exit(CloseAll(v, FirstTickNotFavorable)) && st.None?;
    } else {
      var s := Counted(cfg, w, v, price, st0);
      var stop := Stop(cfg, w, v, price, profit, s);
      if MoneyArmed(cfg, s.ticksSeen) && profit.Invalid? {
        assert out == Raise;
      } else if stop.Some? {
        assert out == Exit(CloseAll(v, stop.value)) && st == Some(s);
      } else {
        assert (out, st.value) == Trailing(cfg, w, v, price, s);
        TrailingReasons(cfg, w, v, price, s);
      }
    }
  }

  /** The two exits of the trailing rules, and what each says about the new state. */
  lemma TrailingReasons(cfg: TickConfig, w: World, v: PositionView, price: real, s: TickState)
    ensures var (out, st) := Trailing(cfg, w, v, price, s);
            out != Raise &&
            (out.Exit? ==> out.action == CloseAll(v, out.action.reason) &&
                           (out.action.reason == BufferBreach || out.action.reason.MaxUnfavorableTicks?)) &&
            (out.Exit? && out.action.reason.MaxUnfavorableTicks? ==>
               out.action.reason.tickLimit == cfg.maxUnfavorableTicks && UnfavorableStop(cfg, st)) &&
            (out.Exit? && out.action.reason == BufferBreach ==>
               st.ticksSeen >= Max(1, cfg.bufferStartTick) &&
               AtOrPast(v.side, st.anchor, price, PipsToPrice(w, v.symbol, cfg.bufferPips)) &&
               Beyond(v.side, v.entry, price, PipsToPrice(w, v.symbol, cfg.minProfitPips)))
  {
    var l := Latched(cfg, w, v, price, s);
    assert Trailing(cfg, w, v, price, s).1 == l || Trailing(cfg, w, v, price, s).1 == l.(anchor := price);
  }

  /**
   * The rules of `_evaluate_position` for a position `v` read at `price`,
   * whose per-ticket state is `st0` (None when the ticket has none yet);
   * `profit` is the floating profit the money stop would read.  `st` is the
   * state afterwards (None when none was created).
   */
  method ApplyRules(cfg: TickConfig, w: World, v: PositionView, price: real, profit: Conv, st0: Option<TickState>)
    returns (out: Outcome, st: Option<TickState>)
    ensures (out, st) == Rules(cfg, w, v, price, profit, st0)
  {
    // A new ticket that starts unfavourable closes at once, before any state exists.
    if FirstTickExit(cfg, w, v, price, st0) {
      return Exit(CloseAll(v, FirstTickNotFavorable)), None;
    }
    var s := Counted(cfg, w, v, price, st0);
    st := Some(s);

    // Soft stop loss in account currency, after the grace ticks.
    if MoneyArmed(cfg, s.ticksSeen) {
      if profit.Invalid? {
        return Raise, st;
      }
      if MoneyStop(cfg, s.ticksSeen, profit) {
        return Exit(CloseAll(v, MaxLossMoney(cfg.maxLossMoney))), st;
      }
    }
    // Soft stop loss as a raw price distance, then in pips when that one is off.
    if PriceStop(cfg, v, price) {
      return Exit(CloseAll(v, MaxLossPrice(cfg.maxLossPrice))), st;
    }
    if PipStop(cfg, w, v, price) {
      return Exit(CloseAll(v, MaxLossPips(cfg.maxLossPips))), st;
    }
    // Early abort of a trade that was never favourable.
    if AbortStop(cfg, w, v, price, s) {
      return Exit(CloseAll(v, EarlyAbort(cfg.earlyAbortTicks, cfg.earlyAbortLossPips))), st;
    }
    // First reversal while in profit.
    if ReversalStop(cfg, w, v, price, s) {
      return Exit(CloseAll(v, FirstReversalInProfit)), st;
    }

    var after;
    out, after := TrailingRules(cfg, w, v, price, s);
    st := Some(after);
  }

  /**
   * The rules of `_evaluate_position` after the reversal check: the
   * previous price, the favourable latch and the unfavourable counter are
   * updated, then the unfavourable-tick limit, the anchor and the buffer
   * breach are applied to the state `s` of a known position.
   */
  method TrailingRules(cfg: TickConfig, w: World, v: PositionView, price: real, s: TickState)
    returns (out: Outcome, st: TickState)
    ensures (out, st) == Trailing(cfg, w, v, price, s)
    // The unfavourable-tick limit first, then the anchor, then the buffer breach.
    ensures UnfavorableStop(cfg, Latched(cfg, w, v, price, s)) ==>
              out == Exit(CloseAll(v, MaxUnfavorableTicks(cfg.maxUnfavorableTicks)))
    ensures !UnfavorableStop(cfg, Latched(cfg, w, v, price, s)) && BufferStop(cfg, w, v, price, Latched(cfg, w, v, price, s)) ==>
              out == Exit(CloseAll(v, BufferBreach))
    ensures out == NoExit <==>
              !UnfavorableStop(cfg, Latched(cfg, w, v, price, s)) && !BufferStop(cfg, w, v, price, Latched(cfg, w, v, price, s))
    ensures st == if !UnfavorableStop(cfg, Latched(cfg, w, v, price, s)) && AnchorMoves(cfg, w, v, price, Latched(cfg, w, v, price, s))
                  then Latched(cfg, w, v, price, s).(anchor := price) else Latched(cfg, w, v, price, s)
    ensures out != Raise
    ensures out.Exit? ==> out.action == CloseAll(v, out.action.reason) &&
                          (out.action.reason == BufferBreach || out.action.reason.MaxUnfavorableTicks?)
    ensures st.ticksSeen == s.ticksSeen && st.prevPrice == price
    ensures s.everFavorable ==> st.everFavorable && st.unfavorableTicks == s.unfavorableTicks
    ensures st.unfavorableTicks == s.unfavorableTicks || st.unfavorableTicks == s.unfavorableTicks + 1
    ensures st.anchor != s.anchor ==>
              st.anchor == price && Beyond(v.side, s.anchor, price, PipsToPrice(w, v.symbol, cfg.epsPips))
    ensures out.Exit? && out.action.reason.MaxUnfavorableTicks? ==>
              out.action.reason.tickLimit == cfg.maxUnfavorableTicks > 0 &&
              !st.everFavorable && st.unfavorableTicks >= cfg.maxUnfavorableTicks
    ensures out.Exit? && out.action.reason == BufferBreach ==>
              st.ticksSeen >= Max(1, cfg.bufferStartTick) &&
              AtOrPast(v.side, st.anchor, price, PipsToPrice(w, v.symbol, cfg.bufferPips)) &&
              Beyond(v.side, v.entry, price, PipsToPrice(w, v.symbol, cfg.minProfitPips))
  {
    var eps := PipsToPrice(w, v.symbol, cfg.epsPips);
    st := s.(prevPrice := price);
    if Beyond(v.side, v.entry, price, eps) {
      st := st.(everFavorable := true);
    } else if !st.everFavorable {
      st := st.(unfavorableTicks := st.unfavorableTicks + 1);
    }

    if cfg.maxUnfavorableTicks > 0 && !st.everFavorable && st.unfavorableTicks >= cfg.maxUnfavorableTicks {
      return Exit(CloseAll(v, MaxUnfavorableTicks(cfg.maxUnfavorableTicks))), st;
    }

    // Anchor update; the buffer trailing applies only when the anchor stays.
    if Beyond(v.side, st.anchor, price, eps) {
      st := st.(anchor := price);
      return NoExit, st;
    }
    if st.ticksSeen < Max(1, cfg.bufferStartTick) {
      return NoExit, st;
    }
    var buf := PipsToPrice(w, v.symbol, cfg.bufferPips);
    if AtOrPast(v.side, st.anchor, price, buf) && Beyond(v.side, v.entry, price, PipsToPrice(w, v.symbol, cfg.minProfitPips)) {
      return Exit(CloseAll(v, BufferBreach)), st;
    }
    return NoExit, st;
  }

  // ---------------------------------------------------------------------
  // The engine
  // ---------------------------------------------------------------------

  /** The tickets carried by a list of positions (positions without one contribute nothing). */
  function TicketsOf(positions: seq<Record>): set<Value> {
    if positions == [] then {}
    else
      var last := positions[|positions| - 1];
      TicketsOf(positions[..|positions| - 1]) + (if PosTicket(last) != VNone then {PosTicket(last)} else {})
  }

  /** One more position adds its ticket, when it has one. */
  lemma TicketsOfStep(positions: seq<Record>, i: int)
    requires 0 <= i < |positions|
    ensures TicketsOf(positions[..i + 1]) ==
            TicketsOf(positions[..i]) + (if PosTicket(positions[i]) != VNone then {PosTicket(positions[i])} else {})
  {
    assert positions[..i + 1][..i] == positions[..i];
  }

  /** The open tickets are exactly the tickets the positions carry. */
  lemma {:induction false} TicketsOfMembers(positions: seq<Record>)
    ensures VNone !in TicketsOf(positions)
    ensures forall p :: p in positions && PosTicket(p) != VNone ==> PosTicket(p) in TicketsOf(positions)
    ensures forall t :: t in TicketsOf(positions) ==> exists p :: p in positions && PosTicket(p) == t
  {
    if positions != [] {
      var rest := positions[..|positions| - 1];
      TicketsOfMembers(rest);
      assert positions == rest + [positions[|positions| - 1]];
    }
  }

  /** `a` is the engine's exit instruction for the position `pos`. */
  predicate ClosesPosition(w: World, tick: Option<Record>, pos: Record, a: ExitAction) {
    Observe(w, tick, pos).Seen? && a == CloseAll(Observe(w, tick, pos).view, a.reason)
  }

  /** `_evaluate_position` as a function: the reading of the position and its price, then the rules. */
  function Evaluate(cfg: TickConfig, w: World, pos: Record, tick: Option<Record>, st0: Option<TickState>)
    : (Outcome, Option<TickState>)
  {
    match Observe(w, tick, pos)
    case Skip => (NoExit, st0)
    case Failed => (Raise, st0)
    case Seen(v, price) => Rules(cfg, w, v, price, ProfitOf(w, pos, v.ticket), st0)
  }

  /**
   * One position of `on_tick` on the state map: a position without a ticket
   * changes nothing; otherwise it is evaluated against its ticket's state,
   * and the state the evaluation leaves (if any) is stored under the ticket,
   * also when the evaluation raises.
   */
  function Visit(cfg: TickConfig, w: World, tick: Option<Record>, states: map<Value, TickState>, pos: Record)
    : (Outcome, map<Value, TickState>)
  {
    var t := PosTicket(pos);
    if t == VNone then (NoExit, states)
    else
      var e := Evaluate(cfg, w, pos, tick, if t in states then Some(states[t]) else None);
      (e.0, if e.1.Some? then states[t := e.1.value] else states)
  }

  /** What `on_tick` has gathered after some positions: the exits so far, the states, and whether an exception escaped. */
  datatype Pass = Pass(actions: seq<ExitAction>, states: map<Value, TickState>, raised: bool)

  /**
   * The positions visited in order from the states `states0`: each exit is
   * appended, and the first exception stops the pass with the states as
   * they were left.
   */
  function VisitAll(cfg: TickConfig, w: World, tick: Option<Record>, states0: map<Value, TickState>, positions: seq<Record>)
    : (p: Pass)
    decreases |positions|
  {
    if positions == [] then Pass([], states0, false)
    else
      var p := VisitAll(cfg, w, tick, states0, positions[..|positions| - 1]);
      if p.raised then p
      else
        var r := Visit(cfg, w, tick, p.states, positions[|positions| - 1]);
        if r.0 == Raise then Pass(p.actions, r.1, true)
        else Pass(p.actions + (if r.0.Exit? then [r.0.action] else []), r.1, false)
  }

  /** Once an exception has escaped, the later positions change nothing. */
  lemma {:induction false} VisitAllStops(cfg: TickConfig, w: World, tick: Option<Record>, states0: map<Value, TickState>,
                                         positions: seq<Record>, i: int)
    requires 0 <= i <= |positions|
    requires VisitAll(cfg, w, tick, states0, positions[..i]).raised
    ensures VisitAll(cfg, w, tick, states0, positions) == VisitAll(cfg, w, tick, states0, positions[..i])
    decreases |positions| - i
  {
    if i == |positions| {
      assert positions[..i] == positions;
    } else {
      assert positions[..i + 1][..i] == positions[..i];
      VisitAllStops(cfg, w, tick, states0, positions, i + 1);
    }
  }

  /** Every exit the pass gathers is the engine's exit instruction for one of the positions. */
  lemma {:induction false} VisitAllCloses(cfg: TickConfig, w: World, tick: Option<Record>, states0: map<Value, TickState>,
                                          positions: seq<Record>)
    ensures forall a :: a in VisitAll(cfg, w, tick, states0, positions).actions ==>
              exists p :: p in positions && ClosesPosition(w, tick, p, a)
    decreases |positions|
  {
    if positions != [] {
      var rest := positions[..|positions| - 1];
      var last := positions[|positions| - 1];
      VisitAllCloses(cfg, w, tick, states0, rest);
      var p := VisitAll(cfg, w, tick, states0, rest);
      if !p.raised {
        var r := Visit(cfg, w, tick, p.states, last);
        if r.0.Exit? {
          EvaluateCloses(cfg, w, last, tick, if PosTicket(last) in p.states then Some(p.states[PosTicket(last)]) else None);
        }
      }
      assert forall q :: q in rest ==> q in positions;
    }
  }

  /** An exit of an evaluation closes the position it read. */
  lemma EvaluateCloses(cfg: TickConfig, w: World, pos: Record, tick: Option<Record>, st0: Option<TickState>)
    ensures Evaluate(cfg, w, pos, tick, st0).0.Exit? ==> ClosesPosition(w, tick, pos, Evaluate(cfg, w, pos, tick, st0).0.action)
  {
    var o := Observe(w, tick, pos);
    if o.Seen? {
      var r := Rules(cfg, w, o.view, o.price, ProfitOf(w, pos, o.view.ticket), st0);
      RulesReasons(cfg, w, o.view, o.price, ProfitOf(w, pos, o.view.ticket), st0, r.0, r.1);
    }
  }

  /** A pass keeps every state it started with and adds states only for the positions' tickets. */
  lemma {:induction false} VisitAllStates(cfg: TickConfig, w: World, tick: Option<Record>, states0: map<Value, TickState>,
                                          positions: seq<Record>)
    ensures var p := VisitAll(cfg, w, tick, states0, positions);
            states0.Keys <= p.states.Keys && p.states.Keys <= states0.Keys + TicketsOf(positions)
    decreases |positions|
  {
    if positions != [] {
      var n := |positions| - 1;
      var rest := positions[..n];
      VisitAllStates(cfg, w, tick, states0, rest);
      TicketsOfStep(positions, n);
      assert positions[..n + 1] == positions;
      var p := VisitAll(cfg, w, tick, states0, rest);
      if !p.raised {
        VisitKeys(cfg, w, tick, p.states, positions[n]);
      }
    }
  }

  /** One position keeps every state and adds at most its own ticket's. */
  lemma VisitKeys(cfg: TickConfig, w: World, tick: Option<Record>, states: map<Value, TickState>, pos: Record)
    ensures var r := Visit(cfg, w, tick, states, pos).1;
            r == states || (PosTicket(pos) != VNone && r.Keys == states.Keys + {PosTicket(pos)})
  {
  }

  /** A pass raises only at a position that was not skipped: one whose reading or price failed. */
  lemma {:induction false} VisitAllRaises(cfg: TickConfig, w: World, tick: Option<Record>, states0: map<Value, TickState>,
                                          positions: seq<Record>)
    ensures VisitAll(cfg, w, tick, states0, positions).raised ==>
              exists p :: p in positions && !Observe(w, tick, p).Skip?
    decreases |positions|
  {
    if positions != [] {
      var rest := positions[..|positions| - 1];
      var last := positions[|positions| - 1];
      VisitAllRaises(cfg, w, tick, states0, rest);
      assert forall q :: q in rest ==> q in positions;
      var p := VisitAll(cfg, w, tick, states0, rest);
      if !p.raised && Visit(cfg, w, tick, p.states, last).0 == Raise {
        assert !Observe(w, tick, last).Skip?;
      }
    }
  }

  /**
   * `_evaluate_position`: read the position and its price, then apply the
   * rules to the ticket's state `st0`.
   */
  method EvaluatePosition(cfg: TickConfig, w: World, pos: Record, tick: Option<Record>, st0: Option<TickState>)
    returns (out: Outcome, st: Option<TickState>)
    ensures (out, st) == Evaluate(cfg, w, pos, tick, st0)
    ensures !Observe(w, tick, pos).Seen? ==> st == st0
    ensures Observe(w, tick, pos).Skip? ==> out == NoExit
    ensures Observe(w, tick, pos).Failed? ==> out == Raise
    ensures out.Exit? ==> ClosesPosition(w, tick, pos, out.action)
    ensures st0.Some? ==> st.Some?
  {
    EvaluateCloses(cfg, w, pos, tick, st0);
    var o := Observe(w, tick, pos);
    match o
    case Skip => return NoExit, st0;
    case Failed => return Raise, st0;
    case Seen(v, price) =>
      out, st := ApplyRules(cfg, w, v, price, ProfitOf(w, pos, v.ticket), st0);
  }

  class TickExitEngine {
    const cfg: TickConfig
    /** `_state_by_ticket`. */
    var states: map<Value, TickState>

    constructor(cfg: TickConfig)
      ensures this.cfg == cfg && states == map[]
    {
      this.cfg := cfg;
      states := map[];
    }

    /** One position of `on_tick`: nothing for a position without a ticket, otherwise its evaluation and the stored state. */
    method VisitPosition(w: World, pos: Record, tick: Option<Record>) returns (out: Outcome)
      modifies this
      ensures (out, states) == Visit(cfg, w, tick, old(states), pos)
      ensures PosTicket(pos) == VNone ==> out == NoExit && states == old(states)
      ensures old(states).Keys <= states.Keys
      ensures forall t :: t in states ==> t in old(states) || t == PosTicket(pos)
      ensures out.Exit? ==> ClosesPosition(w, tick, pos, out.action)
      ensures out == Raise ==> !Observe(w, tick, pos).Skip?
    {
      var ticket := PosTicket(pos);
      if ticket == VNone {
        return NoExit;
      }
      var st0 := if ticket in states then Some(states[ticket]) else None;
      var st;
      out, st := EvaluatePosition(cfg, w, pos, tick, st0);
      if st.Some? {
        states := states[ticket := st.value];
      }
    }

    /**
     * `on_tick`: evaluates every open position that carries a ticket and
     * returns the exit instructions; an exception escaping an evaluation
     * ends the call.  No positions clears all state; otherwise the state of
     * tickets no longer open is pruned, and that of open ones is kept.
     */
    method OnTick(w: World, positions: seq<Record>, tick: Option<Record>) returns (r: Try<seq<ExitAction>>)
      modifies this
      ensures positions == [] ==> r == Ok([]) && states == map[]
      // The positions are visited in order; on success the exits are returned and the states pruned.
      ensures positions != [] ==>
                var p := VisitAll(cfg, w, tick, old(states), positions);
                (r.Raised? <==> p.raised) &&
                (r.Raised? ==> states == p.states) &&
                (r.Ok? ==> r.value == p.actions && states == Pruned(p.states, TicketsOf(positions)))
      ensures r.Ok? ==> states.Keys <= TicketsOf(positions)
      ensures r.Ok? ==> forall t :: t in old(states) && t in TicketsOf(positions) ==> t in states
      ensures r.Ok? ==> forall a :: a in r.value ==> exists p :: p in positions && ClosesPosition(w, tick, p, a)
      ensures r.Raised? ==> exists p :: p in positions && !Observe(w, tick, p).Skip?
    {
      if positions == [] {
        states := map[];
        return Ok([]);
      }
      var actions, open, raised := VisitEach(w, positions, tick);
      VisitAllStates(cfg, w, tick, old(states), positions);
      VisitAllCloses(cfg, w, tick, old(states), positions);
      VisitAllRaises(cfg, w, tick, old(states), positions);
      if raised {
        return Raised;
      }
      Prune(open);
      return Ok(actions);
    }

    /** The loop of `on_tick`: the positions in order, up to the first exception. */
    method VisitEach(w: World, positions: seq<Record>, tick: Option<Record>)
      returns (actions: seq<ExitAction>, open: set<Value>, raised: bool)
      modifies this
      ensures VisitAll(cfg, w, tick, old(states), positions) == Pass(actions, states, raised)
      ensures !raised ==> open == TicketsOf(positions)
    {
      open := {};
      actions := [];
      var i := 0;
      while i < |positions|
        invariant 0 <= i <= |positions|
        invariant open == TicketsOf(positions[..i])
        invariant VisitAll(cfg, w, tick, old(states), positions[..i]) == Pass(actions, states, false)
      {
        var pos := positions[i];
        TicketsOfStep(positions, i);
        assert positions[..i + 1][i] == pos;
        assert positions[..i + 1][..i] == positions[..i];
        if PosTicket(pos) != VNone {
          open := open + {PosTicket(pos)};
        }
        var out := VisitPosition(w, pos, tick);
        if out == Raise {
          VisitAllStops(cfg, w, tick, old(states), positions, i + 1);
          return actions, open, true;
        }
        if out.Exit? {
          actions := actions + [out.action];
        }
        i := i + 1;
      }
      assert positions[..i] == positions;
      return actions, open, false;
    }

    /** `_prune_states`: forget every ticket not in `open`, keep the rest unchanged. */
    method Prune(open: set<Value>)
      modifies this
      ensures states == Pruned(old(states), open)
      ensures states.Keys == old(states).Keys * open
      ensures forall t :: t in states ==> states[t] == old(states)[t]
    {
      var keys := states.Keys;
      while keys != {}
        invariant keys <= states.Keys
        invariant forall t :: t in states ==> t in old(states) && states[t] == old(states)[t]
        invariant forall t :: t in old(states) && (t in open || t in keys) ==> t in states
        invariant forall t :: t in states && t !in keys ==> t in open
        decreases keys
      {
        var t :| t in keys;
        if t !in open {
          states := states - {t};
        }
        keys := keys - {t};
      }
    }
  }
}
