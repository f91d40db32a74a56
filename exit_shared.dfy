// Position accessors, the per-ticket exit state and the exit instruction shared
// by the exit engines and their managers.

module ExitShared {
  import opened Base

  /** Why an exit was requested (the reason text of the Python action). */
  datatype Reason =
    | FirstTickNotFavorable
    | MaxLossMoney(limit: real)
    | MaxLossPrice(distance: real)
    | MaxLossPips(pips: real)
    | EarlyAbort(ticks: int, lossPips: real)
    | FirstReversalInProfit
    | MaxUnfavorableTicks(tickLimit: int)
    | BufferBreach
    | ProfitDrop
    | ProfitDropAfterBe
    | BeRecoveredAfterUnprofit
    | TrailingBreachGt5c
    | PipDrop
    | CrossedToLossAfterBe
    | TrailingBreachGt04Pip

  /** Instruction to close (part of) an open position. */
  datatype ExitAction = ExitAction(ticket: Value, symbol: string, side: Side, volume: real, reason: Reason)

  /** Result of evaluating one position: no exit, an exit, or an exception escaping. */
  datatype Outcome = NoExit | Exit(action: ExitAction) | Raise

  /**
   * `price` lies strictly beyond `reference + margin` in the position's
   * favour (above for a BUY, below for a SELL).  This is the shape of
   * `_is_favorable_vs_entry`, `_is_favorable_vs_anchor` and the
   * net-profit test.
   */
  predicate Beyond(side: Side, reference: real, price: real, margin: real) {
    if side == Buy then price > reference + margin else price < reference - margin
  }

  /** `price` has moved at least `distance` against the position from `reference`. */
  predicate AtOrPast(side: Side, reference: real, price: real, distance: real) {
    if side == Buy then price <= reference - distance else price >= reference + distance
  }

  /**
   * A price cannot be both clear of the entry by a non-negative margin and
   * at a non-negative loss distance from it: a stop and an in-profit test
   * never hold together.
   */
  lemma ProfitAndLossExclusive(side: Side, entry: real, price: real, margin: real, distance: real)
    requires margin >= 0.0 && distance >= 0.0
    ensures !(Beyond(side, entry, price, margin) && AtOrPast(side, entry, price, distance))
  {
  }

  /** The exit instruction for a position: the opposite side, `volume * ratio` lots. */
  function CloseAction(ticket: Value, symbol: string, positionSide: Side, volume: real, ratio: real, reason: Reason): (a: ExitAction)
    ensures a.side != positionSide
    ensures a.ticket == ticket && a.symbol == symbol && a.reason == reason
    ensures a.volume == volume * ratio
  {
    ExitAction(ticket, symbol, Opposite(positionSide), volume * ratio, reason)
  }

  /**
   * Per-ticket exit state.  The first nine fields are the dataclass fields;
   * the rest are attributes the managers attach later (None = not attached,
   * so that `hasattr` is observable).
   */
  datatype PosState = PosState(
    anchor: real,
    prevPrice: real,
    ticksSeen: int,
    everFavorable: bool,
    unfavorableTicks: int,
    anchorClose: real,
    prevClose: real,
    closesSeen: int,
    prevInProfit: Option<bool>,
    beArmed: Option<bool>,
    beArmingTicks: Option<int>,
    wasUnprofitableAfterBe: Option<bool>,
    wasProfitableAfterUnprofit: Option<bool>,
    unprofitProfit: Option<real>,
    beArmedTick: Option<int>,
    beArmedPrice: Option<Value>,
    bestProfit: Option<real>,
    breachTicks: Option<int>,
    bestPipGain: Option<real>)

  /** `PosState(anchor=a, prev_price=p)` with every other field at its default. */
  function NewPosState(anchor: real, prevPrice: real): (st: PosState)
    ensures st.anchor == anchor && st.prevPrice == prevPrice
    ensures st.ticksSeen == 0 && !st.everFavorable && st.unfavorableTicks == 0 && st.closesSeen == 0
    ensures st.beArmed.None? && st.beArmingTicks.None? && st.bestProfit.None? && st.bestPipGain.None?
  {
    PosState(anchor, prevPrice, 0, false, 0, 0.0, 0.0, 0, None,
             None, None, None, None, None, None, None, None, None, None)
  }

  // ---------------------------------------------------------------------
  // Accessors
  // ---------------------------------------------------------------------

  /** The value of the first of `keys` present in the record, or None. */
  function GetAny(r: Record, keys: seq<string>): (v: Value)
    ensures (forall i :: 0 <= i < |keys| ==> keys[i] !in r.Fields()) ==> v == VNone
    ensures forall i :: (0 <= i < |keys| && keys[i] in r.Fields() &&
              (forall j :: 0 <= j < i ==> keys[j] !in r.Fields())) ==> v == r.Fields()[keys[i]]
  {
    if keys == [] then VNone
    else if keys[0] in r.Fields() then r.Fields()[keys[0]]
    else GetAny(r, keys[1..])
  }

  const SymbolKeys: seq<string> := ["symbol"]
  const SideKeys: seq<string> := ["type", "side", "direction"]
  const TicketKeys: seq<string> := ["ticket", "id", "position", "order"]
  const EntryKeys: seq<string> := ["price_open", "open_price", "entry_price", "price"]
  const VolumeKeys: seq<string> := ["volume", "lots", "qty", "quantity"]
  const ProfitKeys: seq<string> := ["profit", "pnl", "floating_profit"]

  /** `str(v)`; floats and foreign objects are rendered by placeholders. */
  function Str(v: Value): (s: string)
    ensures v.VStr? ==> s == v.s
    ensures v.VInt? ==> s == IntToString(v.i)
    ensures v.VNone? ==> s == "None"
  {
    match v
    case VNone => "None"
    case VBool(b) => if b then "True" else "False"
    case VInt(i) => IntToString(i)
    case VReal(_) => "<float>"
    case VStr(s) => s
    case VTime(_, _) => "<datetime>"
    case VOther => "<object>"
  }

  /** `pos_symbol`: None for a falsy value, otherwise its text. */
  function PosSymbol(p: Record): (r: Option<string>)
    ensures r.None? <==> !Truthy(GetAny(p, SymbolKeys))
    ensures r.Some? ==> r.value != ""
    ensures GetAny(p, SymbolKeys).VStr? && r.Some? ==> r.value == GetAny(p, SymbolKeys).s
  {
    var v := GetAny(p, SymbolKeys);
    if Truthy(v) then Some(Str(v)) else None
  }

  /** Side code: buy/long and sell/short as text, 0 and 1 as numbers. */
  function SideOf(t: Value): (r: Option<Side>)
    ensures t.VStr? ==> (r == Some(Buy) <==> Lower(Strip(t.s)) in {"buy", "long"})
    ensures t.VStr? ==> (r == Some(Sell) <==> Lower(Strip(t.s)) in {"sell", "short"})
    ensures t.VInt? ==> (r == Some(Buy) <==> t.i == 0) && (r == Some(Sell) <==> t.i == 1)
    ensures t.VNone? || t.VOther? ==> r.None?
  {
    match t
    case VNone => None
    case VStr(s) =>
      var w := Lower(Strip(s));
      if w == "buy" || w == "long" then Some(Buy)
      else if w == "sell" || w == "short" then Some(Sell)
      else None
    case _ =>
      match IntOf(t)
      case Some(i) => if i == 0 then Some(Buy) else if i == 1 then Some(Sell) else None
      case None => None
  }

  function PosSide(p: Record): Option<Side> {
    SideOf(GetAny(p, SideKeys))
  }

  function PosTicket(p: Record): Value {
    GetAny(p, TicketKeys)
  }

  function PosEntry(p: Record): Conv {
    FloatOrNone(GetAny(p, EntryKeys))
  }

  function PosVolume(p: Record): Conv {
    FloatOrNone(GetAny(p, VolumeKeys))
  }

  function PosProfit(p: Record): Conv {
    FloatOrNone(GetAny(p, ProfitKeys))
  }

  /**
   * `is_break_even`: profit >= 0 read with `getattr`, a missing attribute
   * counting as 0.  A dict has no attributes, so it always counts as break-even.
   */
  function IsBreakEven(p: Record): (r: Try<bool>)
    ensures p.Dict? ==> r == Ok(true)
    ensures p.Obj? && "profit" !in p.attrs ==> r == Ok(true)
    ensures p.Obj? && "profit" in p.attrs && p.attrs["profit"].VReal? ==> r == Ok(p.attrs["profit"].r >= 0.0)
    ensures r.Raised? <==> RawNumber(GetAttr(p, "profit")).Invalid?
  {
    match RawNumber(GetAttr(p, "profit"))
    case Missing => Ok(true)
    case Parsed(x) => Ok(x >= 0.0)
    case Invalid => Raised
  }

  /** The five fields every exit rule needs. */
  datatype PositionView = PositionView(symbol: string, side: Side, ticket: Value, entry: real, volume: real)

  datatype ReadOutcome = Incomplete | Complete(view: PositionView) | ReadRaised

  /**
   * Reads symbol, side, ticket, entry and volume in that order: a float()
   * failure on entry or volume raises, any missing field makes the position
   * incomplete (no exit decision).
   */
  function ReadPosition(p: Record): (r: ReadOutcome)
    ensures r.ReadRaised? <==> PosEntry(p).Invalid? || PosVolume(p).Invalid?
    ensures r.Complete? <==>
      PosSymbol(p).Some? && PosSide(p).Some? && PosTicket(p) != VNone && PosEntry(p).Parsed? && PosVolume(p).Parsed?
    ensures r.Complete? ==>
      r.view == PositionView(PosSymbol(p).value, PosSide(p).value, PosTicket(p), PosEntry(p).x, PosVolume(p).x)
  {
    var entry := PosEntry(p);
    var volume := PosVolume(p);
    if entry.Invalid? || volume.Invalid? then ReadRaised
    else if PosSymbol(p).None? || PosSide(p).None? || PosTicket(p) == VNone || entry.Missing? || volume.Missing? then Incomplete
    else Complete(PositionView(PosSymbol(p).value, PosSide(p).value, PosTicket(p), entry.x, volume.x))
  }

  /**
   * The floating profit the managers compare: the `profit` attribute read
   * with `getattr` (so a dict has none), a missing one counting as 0.0; a
   * non-numeric one makes the comparison raise.
   */
  function AttrProfit(p: Record): (c: Conv)
    ensures c != Missing
    ensures c == Invalid <==> RawNumber(GetAttr(p, "profit")).Invalid?
    ensures p.Dict? ==> c == Parsed(0.0)
  {
    match RawNumber(GetAttr(p, "profit"))
    case Missing => Parsed(0.0)
    case Parsed(x) => Parsed(x)
    case Invalid => Invalid
  }

  /** `is_break_even` agrees with the profit the managers compare: break-even is profit >= 0. */
  lemma BreakEvenIsNonNegativeProfit(p: Record)
    ensures IsBreakEven(p).Raised? <==> AttrProfit(p).Invalid?
    ensures AttrProfit(p).Parsed? ==> IsBreakEven(p) == Ok(AttrProfit(p).x >= 0.0)
  {
  }

  /** `get_tick_value`: a dict tick by key, any other tick by attribute, no tick at all gives None. */
  function TickValue(tick: Option<Record>, key: string): (v: Value)
    ensures tick.None? ==> v == VNone
    ensures tick.Some? && key in tick.value.Fields() ==> v == tick.value.Fields()[key]
    ensures tick.Some? && key !in tick.value.Fields() ==> v == VNone
  {
    match tick
    case None => VNone
    case Some(t) => if key in t.Fields() then t.Fields()[key] else VNone
  }

  /** The tick price a position closes at: bid for a BUY, ask for a SELL. */
  function CloseKey(side: Side): string {
    if side == Buy then "bid" else "ask"
  }

  // ---------------------------------------------------------------------
  // Properties of the accessors
  // ---------------------------------------------------------------------

  /** `pos_ticket` prefers "ticket" over "id" over "position" over "order". */
  lemma TicketKeyPriority(p: Record)
    ensures "ticket" in p.Fields() ==> PosTicket(p) == p.Fields()["ticket"]
    ensures "ticket" !in p.Fields() && "id" in p.Fields() ==> PosTicket(p) == p.Fields()["id"]
    ensures "ticket" !in p.Fields() && "id" !in p.Fields() && "position" in p.Fields() ==>
              PosTicket(p) == p.Fields()["position"]
    ensures "ticket" !in p.Fields() && "id" !in p.Fields() && "position" !in p.Fields() && "order" in p.Fields() ==>
              PosTicket(p) == p.Fields()["order"]
    ensures (forall k :: k in TicketKeys ==> k !in p.Fields()) ==> PosTicket(p) == VNone
  {
    var F := p.Fields();
    if "ticket" !in F && "id" in F {
      assert TicketKeys[1] in F && forall j :: 0 <= j < 1 ==> TicketKeys[j] !in F;
    }
    if "ticket" !in F && "id" !in F && "position" in F {
      assert TicketKeys[2] in F && forall j :: 0 <= j < 2 ==> TicketKeys[j] !in F;
    }
    if "ticket" !in F && "id" !in F && "position" !in F && "order" in F {
      assert TicketKeys[3] in F && forall j :: 0 <= j < 3 ==> TicketKeys[j] !in F;
    }
  }

  /** The per-ticket states kept by `_prune_states`: those of the open tickets. */
  function Pruned<S>(states: map<Value, S>, open: set<Value>): (m: map<Value, S>)
    ensures m.Keys == states.Keys * open
    ensures forall t :: t in m ==> m[t] == states[t]
  {
    map t | t in states && t in open :: states[t]
  }
}
