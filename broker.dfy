// Broker-side arithmetic (point, pip and stop distances, SL/TP geometry,
// volume normalisation) and the simulated position book used in demo and
// backtest modes.

module Broker {
  import opened Base
  import opened ExitShared

  /** The fields of an MT5 symbol description the model reads. */
  datatype SymbolInfo = SymbolInfo(
    point: real,
    digits: int,
    stopsLevel: int,
    freezeLevel: int,
    volumeMin: real,
    volumeMax: real,
    volumeStep: real,
    contractSize: Option<real>)

  /** Best bid and ask of a symbol. */
  datatype Quote = Quote(bid: real, ask: real)

  /** `sub in s` for strings. */
  predicate Contains(s: string, sub: string) {
    |s| >= |sub| && (s[..|sub|] == sub || Contains(s[1..], sub))
  }

  predicate IsJpy(symbol: string) {
    Contains(symbol, "JPY")
  }

  /** `get_point_size`: the symbol's point, or 0.00001 (0.001 for JPY) without symbol info. */
  function PointSize(info: Option<SymbolInfo>, symbol: string): (p: real)
    ensures info.Some? ==> p == info.value.point
    ensures info.None? ==> p > 0.0
  {
    match info
    case None => if IsJpy(symbol) then 0.001 else 0.00001
    case Some(si) => si.point
  }

  /** `get_pip_size`: ten points for 3- and 5-digit symbols, one point otherwise. */
  function PipSize(info: Option<SymbolInfo>, symbol: string): (p: real)
    ensures info.None? ==> p > 0.0
  {
    match info
    case None => if IsJpy(symbol) then 0.01 else 0.0001
    case Some(si) => if si.digits == 3 || si.digits == 5 then si.point * 10.0 else si.point
  }

  /** `get_min_stop_distance`: stops level times point, or two points without symbol info. */
  function MinStopDistance(info: Option<SymbolInfo>, symbol: string): (d: real)
    ensures info.Some? ==> d == info.value.stopsLevel as real * info.value.point
  {
    match info
    case None => 2.0 * PointSize(None, symbol)
    case Some(si) => si.stopsLevel as real * si.point
  }

  /**
   * The pip is ten points for fractional-pip quotes and for the fallbacks
   * used without symbol info; for any other digit count it is one point.
   */
  lemma PipIsTenPointsForFractionalQuotes(info: Option<SymbolInfo>, symbol: string)
    ensures info.None? || info.value.digits in {3, 5} ==> PipSize(info, symbol) == 10.0 * PointSize(info, symbol)
    ensures info.Some? && info.value.digits !in {3, 5} ==> PipSize(info, symbol) == PointSize(info, symbol)
    ensures info.None? ==> MinStopDistance(info, symbol) == 2.0 * PointSize(info, symbol) > 0.0
  {
  }

  // ---------------------------------------------------------------------
  // Rounding
  // ---------------------------------------------------------------------

  /** Python's `round(x)`: nearest integer, ties to even. */
  function RoundHalfEven(x: real): (n: int)
    ensures -0.5 <= x - n as real <= 0.5
  {
    var f := x.Floor;
    var d := x - f as real;
    if d < 0.5 then f
    else if d > 0.5 then f + 1
    else if f % 2 == 0 then f
    else f + 1
  }

  lemma RoundHalfEvenOfInteger(n: int)
    ensures RoundHalfEven(n as real) == n
  {
  }

  lemma RoundHalfEvenMonotone(x: real, y: real)
    requires x <= y
    ensures RoundHalfEven(x) <= RoundHalfEven(y)
  {
    if RoundHalfEven(x) > RoundHalfEven(y) {
      assert false;
    }
  }

  /** `round(x, d)`: x rounded to d decimal places. */
  function RoundDigits(x: real, d: nat): (r: real)
    ensures -0.5 <= (x - r) * Pow10(d) as real <= 0.5
  {
    var scale := Pow10(d) as real;
    var n := RoundHalfEven(x * scale);
    var r := n as real / scale;
    assert r * scale == n as real;
    assert (x - r) * scale == x * scale - n as real;
    r
  }

  /** Rounding to cents is monotone. */
  lemma RoundCentsMonotone(x: real, y: real)
    requires x <= y
    ensures RoundDigits(x, 2) <= RoundDigits(y, 2)
  {
    assert Pow10(2) == 100;
    RoundHalfEvenMonotone(x * 100.0, y * 100.0);
  }

  /** A whole number of cents is left as it is. */
  lemma RoundCentsOfMultiple(k: int)
    ensures RoundDigits(k as real / 100.0, 2) == k as real / 100.0
  {
    assert Pow10(2) == 100;
    assert (k as real / 100.0) * 100.0 == k as real;
    RoundHalfEvenOfInteger(k);
  }

  /** `_digits`: the symbol's digit count, 5 without symbol info. */
  function Digits(info: Option<SymbolInfo>): int {
    match info
    case None => 5
    case Some(si) => si.digits
  }

  /** `_normalize_price`: the price rounded to the symbol's digits (negative counts read as 0). */
  function NormalizePrice(info: Option<SymbolInfo>, x: real): real {
    var d := Digits(info);
    RoundDigits(x, if d < 0 then 0 else d)
  }

  // ---------------------------------------------------------------------
  // Stop-loss / take-profit geometry
  // ---------------------------------------------------------------------

  const MinSlPips: real := 5.0

  datatype Units = Points | Pips

  /** `units` text: only "points" and "pips" are accepted. */
  function ParseUnits(units: string): (u: Option<Units>)
    ensures u.Some? <==> units in {"points", "pips"}
  {
    if units == "points" then Some(Points) else if units == "pips" then Some(Pips) else None
  }

  /** Price distance of one unit: a point or a pip. */
  function UnitSize(units: Units, info: Option<SymbolInfo>, symbol: string): (step: real)
    ensures units == Points ==> step == PointSize(info, symbol)
    ensures units == Pips ==> step == PipSize(info, symbol)
  {
    if units == Points then PointSize(info, symbol) else PipSize(info, symbol)
  }

  /** SL and TP prices before digit normalisation, `step` being the size of one unit. */
  function SlTpRaw(buy: bool, price: real, slPips: real, tpPips: real, units: Units, step: real): (r: (real, real))
  {
    var sl := if units == Pips then (if slPips > MinSlPips then slPips else MinSlPips) else slPips;
    var tp := if units == Pips then (if tpPips > 0.0 then tpPips else 0.0) else tpPips;
    var slDistance := sl * step;
    var tpDistance := tp * step;
    if buy then (price - slDistance, price + tpDistance)
    else (price + slDistance, price - tpDistance)
  }

  /** `calculate_sl_tp_prices`: raises for unknown units, otherwise the normalised pair. */
  function CalculateSlTp(direction: string, price: real, slPips: real, tpPips: real, units: string,
                         info: Option<SymbolInfo>, symbol: string): (r: Try<(real, real)>)
    ensures r.Raised? <==> units !in {"points", "pips"}
    ensures r.Ok? ==>
      var u := ParseUnits(units).value;
      var raw := SlTpRaw(direction == "BUY", price, slPips, tpPips, u, UnitSize(u, info, symbol));
      r.value == (NormalizePrice(info, raw.0), NormalizePrice(info, raw.1))
  {
    match ParseUnits(units)
    case None => Raised
    case Some(u) =>
      var raw := SlTpRaw(direction == "BUY", price, slPips, tpPips, u, UnitSize(u, info, symbol));
      Ok((NormalizePrice(info, raw.0), NormalizePrice(info, raw.1)))
  }

  /**
   * In pips mode with a positive pip, the stop loss of a BUY lies at least
   * MIN_SL_PIPS pips below the price and its take profit at or above it; a
   * SELL is the mirror image.
   */
  lemma SlTpGeometry(buy: bool, price: real, slPips: real, tpPips: real, pip: real)
    requires pip > 0.0
    ensures var r := SlTpRaw(buy, price, slPips, tpPips, Pips, pip);
            if buy then r.0 <= price - MinSlPips * pip && r.1 >= price
            else r.0 >= price + MinSlPips * pip && r.1 <= price
  {
    var sl := if slPips > MinSlPips then slPips else MinSlPips;
    var tp := if tpPips > 0.0 then tpPips else 0.0;
    StopGeometry(buy, price, sl, tp, pip);
  }

  lemma StopGeometry(buy: bool, price: real, sl: real, tp: real, pip: real)
    requires pip > 0.0 && sl >= MinSlPips && tp >= 0.0
    ensures buy ==> price - sl * pip <= price - MinSlPips * pip && price + tp * pip >= price
    ensures !buy ==> price + sl * pip >= price + MinSlPips * pip && price - tp * pip <= price
  {
    ScaleMonotone(sl, MinSlPips, pip);
    ScaleMonotone(tp, 0.0, pip);
  }

  lemma ScaleMonotone(a: real, b: real, c: real)
    requires a >= b && c > 0.0
    ensures a * c >= b * c
  {
    var d := a - b;
    assert a * c == b * c + d * c;
  }

  /**
   * Minimum-distance enforcement on a requested stop (before normalisation):
   * a stop closer than `minDist` to the price is moved to exactly `minDist`
   * below (BUY stop loss) or above (SELL stop loss) the price; `below`
   * selects the side for the take profit the same way.
   */
  function EnforceMinDistance(price: real, stop: Option<real>, minDist: real, below: bool): (r: Option<real>)
    ensures r.None? <==> stop.None?
    ensures r.Some? && minDist >= 0.0 ==> r.value - price >= minDist || price - r.value >= minDist
    ensures r.Some? && (stop.value - price >= minDist || price - stop.value >= minDist) ==> r == stop
  {
    match stop
    case None => None
    case Some(s) =>
      var gap := if price >= s then price - s else s - price;
      if gap < minDist then Some(if below then price - minDist else price + minDist) else Some(s)
  }

  /** `sl in (None, 0, 0.0)`: a zero stop means "no stop". */
  function RequestedStop(v: Option<real>): (r: Option<real>)
    ensures r.Some? ==> r.value != 0.0
  {
    match v
    case None => None
    case Some(x) => if x == 0.0 then None else Some(x)
  }

  /** `get_lot_value`: the symbol's contract size, or 100000 without one. */
  function LotValue(info: Option<SymbolInfo>): (v: real)
    ensures info.Some? && info.value.contractSize.Some? ==> v == info.value.contractSize.value
    ensures info.None? || info.value.contractSize.None? ==> v == 100000.0
  {
    if info.Some? && info.value.contractSize.Some? then info.value.contractSize.value else 100000.0
  }

  // ---------------------------------------------------------------------
  // Volume normalisation
  // ---------------------------------------------------------------------

  /** Clamp to [volume_min, volume_max] after snapping to the step, before the 2-decimal rendering. */
  function ClampVolume(si: SymbolInfo, lot: real): real
    requires si.volumeStep != 0.0
  {
    var snapped := RoundHalfEven(lot / si.volumeStep) as real * si.volumeStep;
    var capped := if si.volumeMax < snapped then si.volumeMax else snapped;
    if si.volumeMin > capped then si.volumeMin else capped
  }

  /** The live-order volume normalisation; a zero step divides by zero. */
  function NormalizeVolume(si: SymbolInfo, lot: real): (r: Try<real>)
    ensures r.Raised? <==> si.volumeStep == 0.0
    ensures r.Ok? ==> -0.005 <= ClampVolume(si, lot) - r.value <= 0.005
  {
    if si.volumeStep == 0.0 then Raised
    else
      assert Pow10(2) == 100;
      Ok(RoundDigits(ClampVolume(si, lot), 2))
  }

  /**
   * With volume_min <= volume_max, both whole multiples of 0.01 lots, the
   * normalised volume lies within [volume_min, volume_max].
   */
  lemma NormalizedVolumeWithinLimits(si: SymbolInfo, lot: real, kMin: int, kMax: int)
    requires si.volumeStep != 0.0
    requires si.volumeMin == kMin as real / 100.0 && si.volumeMax == kMax as real / 100.0
    requires si.volumeMin <= si.volumeMax
    ensures NormalizeVolume(si, lot).Ok?
    ensures si.volumeMin <= NormalizeVolume(si, lot).value <= si.volumeMax
  {
    var c := ClampVolume(si, lot);
    assert si.volumeMin <= c <= si.volumeMax;
    RoundCentsMonotone(si.volumeMin, c);
    RoundCentsMonotone(c, si.volumeMax);
    RoundCentsOfMultiple(kMin);
    RoundCentsOfMultiple(kMax);
  }

  // ---------------------------------------------------------------------
  // Simulated position book (demo / backtest modes)
  // ---------------------------------------------------------------------

  /** A simulated trade as the book stores it. */
  datatype SimTrade = SimTrade(ticket: int, symbol: string, direction: Side, lot: real, price: real, sl: Value, tp: Value)

  /** The dict the book hands out for a trade. */
  function TradeRecord(t: SimTrade): Record {
    Dict(map[
      "ticket" := VInt(t.ticket),
      "symbol" := VStr(t.symbol),
      "direction" := VStr(if t.direction == Buy then "BUY" else "SELL"),
      "type" := VInt(if t.direction == Buy then 0 else 1),
      "lot" := VReal(t.lot),
      "volume" := VReal(t.lot),
      "open_price" := VReal(t.price),
      "price_open" := VReal(t.price),
      "sl" := t.sl,
      "tp" := t.tp,
      "profit" := VReal(0.0)])
  }

  /**
   * The exit engines read a simulated trade back as it was opened: its
   * symbol, its side, its ticket, its price as entry and its lot as volume.
   * Being a dict, it always counts as break-even.
   */
  lemma TradeRecordReadsBack(t: SimTrade)
    requires t.symbol != ""
    ensures ReadPosition(TradeRecord(t)) == Complete(PositionView(t.symbol, t.direction, VInt(t.ticket), t.price, t.lot))
    ensures IsBreakEven(TradeRecord(t)) == Ok(true)
  {
    TradeRecordKeys(t);
  }

  /** The keys the exit engines look up first are all present in a trade's dict. */
  lemma TradeRecordKeys(t: SimTrade)
    ensures GetAny(TradeRecord(t), SymbolKeys) == VStr(t.symbol)
    ensures GetAny(TradeRecord(t), SideKeys) == VInt(if t.direction == Buy then 0 else 1)
    ensures PosTicket(TradeRecord(t)) == VInt(t.ticket)
    ensures GetAny(TradeRecord(t), EntryKeys) == VReal(t.price)
    ensures GetAny(TradeRecord(t), VolumeKeys) == VReal(t.lot)
  {
    var F := TradeRecord(t).Fields();
    assert SymbolKeys[0] in F;
    assert SideKeys[0] in F;
    assert TicketKeys[0] in F;
    assert EntryKeys[0] in F;
    assert VolumeKeys[0] in F;
  }

  /** The trades whose ticket differs from `t`, in their original order. */
  function WithoutTicket(trades: seq<SimTrade>, t: int): (r: seq<SimTrade>)
    ensures |r| <= |trades|
    ensures forall x :: x in r <==> x in trades && x.ticket != t
  {
    if trades == [] then []
    else if trades[0].ticket != t then [trades[0]] + WithoutTicket(trades[1..], t)
    else WithoutTicket(trades[1..], t)
  }

  /** The trades on `symbol`, in their original order. */
  function TradesOn(trades: seq<SimTrade>, symbol: string): (r: seq<SimTrade>)
    ensures forall x :: x in r <==> x in trades && x.symbol == symbol
  {
    if trades == [] then []
    else if trades[0].symbol == symbol then [trades[0]] + TradesOn(trades[1..], symbol)
    else TradesOn(trades[1..], symbol)
  }

  function Records(trades: seq<SimTrade>): (r: seq<Record>)
    ensures |r| == |trades|
    ensures forall i :: 0 <= i < |trades| ==> r[i] == TradeRecord(trades[i])
  {
    if trades == [] then [] else [TradeRecord(trades[0])] + Records(trades[1..])
  }

  /** Tickets strictly increase along the book and stay below the next ticket to issue. */
  ghost predicate TicketsOrdered(trades: seq<SimTrade>, next: int) {
    (forall i :: 0 <= i < |trades| ==> trades[i].ticket < next) &&
    (forall i, j :: 0 <= i < j < |trades| ==> trades[i].ticket < trades[j].ticket)
  }

  /** Removing trades keeps the order: a sub-sequence of an ordered book is ordered. */
  lemma {:induction false} WithoutTicketOrdered(trades: seq<SimTrade>, t: int, next: int)
    requires TicketsOrdered(trades, next)
    ensures TicketsOrdered(WithoutTicket(trades, t), next)
  {
    if trades != [] {
      var tail := trades[1..];
      assert TicketsOrdered(tail, next);
      WithoutTicketOrdered(tail, t, next);
      var rest := WithoutTicket(tail, t);
      if trades[0].ticket != t {
        forall x | x in rest
          ensures trades[0].ticket < x.ticket
        {
          var k :| 0 <= k < |tail| && tail[k] == x;
          assert trades[k + 1] == x;
        }
        ConsOrdered(trades[0], rest, next);
      }
    }
  }

  /** A trade whose ticket is below every ticket of an ordered book can go in front of it. */
  lemma ConsOrdered(a: SimTrade, rest: seq<SimTrade>, next: int)
    requires TicketsOrdered(rest, next) && a.ticket < next
    requires forall x :: x in rest ==> a.ticket < x.ticket
    ensures TicketsOrdered([a] + rest, next)
  {
    var r := [a] + rest;
    forall i, j | 0 <= i < j < |r|
      ensures r[i].ticket < r[j].ticket
    {
      assert r[j] == rest[j - 1];
      if i > 0 {
        assert r[i] == rest[i - 1];
      }
    }
  }

  class SimBroker {
    /** True in backtest mode, false in demo mode. */
    const backtest: bool
    /** `open_positions_sim`. */
    var trades: seq<SimTrade>
    /** `_sim_ticket_seq`: the next ticket to issue. */
    var ticketSeq: int

    ghost predicate Valid()
      reads this
    {
      ticketSeq >= 1 && TicketsOrdered(trades, ticketSeq)
    }

    constructor(backtest: bool)
      ensures Valid()
      ensures this.backtest == backtest && trades == [] && ticketSeq == 1
    {
      this.backtest := backtest;
      trades := [];
      ticketSeq := 1;
    }

    /**
     * `place_buy` / `place_sell` in the simulated modes.  A backtest order
     * needs a historical price and raises without one; a demo order fills
     * at the quote (ask for BUY, bid for SELL), or at 1.0 without a quote.
     * The new trade gets the next ticket and is appended to the book.
     */
    method Place(symbol: string, direction: Side, lot: real, sl: Value, tp: Value,
                 price: Option<real>, quote: Option<Quote>) returns (r: Try<SimTrade>)
      requires Valid()
      modifies this
      ensures Valid()
      ensures backtest && price.None? ==> r.Raised? && trades == old(trades) && ticketSeq == old(ticketSeq)
      ensures !(backtest && price.None?) ==> r.Ok?
      ensures r.Ok? ==>
        && r.value.ticket == old(ticketSeq)
        && r.value.symbol == symbol && r.value.direction == direction && r.value.lot == lot
        && r.value.price == (if backtest then price.value
                             else if quote.Some? then (if direction == Buy then quote.value.ask else quote.value.bid)
                             else 1.0)
        && trades == old(trades) + [r.value]
        && ticketSeq == old(ticketSeq) + 1
    {
      var fill: real;
      if backtest {
        if price.None? {
          return Raised;
        }
        fill := price.value;
      } else {
        fill := 1.0;
        if quote.Some? {
          fill := if direction == Buy then quote.value.ask else quote.value.bid;
        }
      }
      var ticket := ticketSeq;
      ticketSeq := ticketSeq + 1;
      var trade := SimTrade(ticket, symbol, direction, lot, fill, sl, tp);
      trades := trades + [trade];
      r := Ok(trade);
    }

    /**
     * `close_position` in the simulated modes: nothing happens without a
     * ticket, a symbol or a side, or when the ticket is not an integer;
     * otherwise every trade with that ticket leaves the book and the result
     * is True (even when no trade matched).
     */
    method ClosePosition(ticket: Value, symbol: string, side: string) returns (r: Option<bool>)
      requires Valid()
      modifies this
      ensures Valid()
      ensures ticketSeq == old(ticketSeq)
      ensures ticket == VNone || symbol == "" || side == "" || IntOfTicket(ticket).None? ==>
                r.None? && trades == old(trades)
      ensures r.Some? ==> r.value && trades == WithoutTicket(old(trades), IntOfTicket(ticket).value)
      ensures r.Some? ==> forall x :: x in trades ==> x.ticket != IntOfTicket(ticket).value
    {
      if ticket == VNone || symbol == "" || side == "" {
        return None;
      }
      var t := IntOfTicket(ticket);
      if t.None? {
        return None;
      }
      WithoutTicketOrdered(trades, t.value, ticketSeq);
      trades := WithoutTicket(trades, t.value);
      r := Some(true);
    }

    /** `get_open_positions(symbol)`: the book's dicts, filtered by symbol when one is given. */
    function OpenPositions(symbol: string): (r: seq<Record>)
      reads this
      ensures symbol == "" ==> r == Records(trades)
      ensures symbol != "" ==> r == Records(TradesOn(trades, symbol))
    {
      if symbol == "" then Records(trades) else Records(TradesOn(trades, symbol))
    }
  }

  /** `int(ticket)`: ints, bools, truncated floats and integer literals in text. */
  function IntOfTicket(v: Value): (r: Option<int>)
    ensures v.VInt? ==> r == Some(v.i)
    ensures v.VNone? || v.VOther? ==> r.None?
  {
    match v
    case VStr(s) => ParseInt(s)
    case _ => IntOf(v)
  }

  /** `int(s)` for text: optional surrounding blanks, an optional sign, then digits. */
  function ParseInt(s: string): (r: Option<int>)
    ensures AllDigits(s) && s != [] ==> r == Some(DigitsValue(s))
  {
    StripOfDigits(s);
    var t := Strip(s);
    if |t| > 1 && t[0] == '-' && AllDigits(t[1..]) then Some(0 - DigitsValue(t[1..]) as int)
    else if |t| > 1 && t[0] == '+' && AllDigits(t[1..]) then Some(DigitsValue(t[1..]))
    else if |t| > 0 && AllDigits(t) then Some(DigitsValue(t))
    else None
  }
}
