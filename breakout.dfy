// The opening-range breakout strategy: a symbol whose ask breaks above the
// high (below the low) of its opening candles, by more than a small
// buffer, becomes a BUY (SELL) signal; signals are deduplicated by symbol
// and sized with an even share of the lot-risk percentage.

module Breakout {
  import opened Base
  import opened SignalGeneration
  import opened Broker
  import opened SignalBatch
  import Entry

  /** `OPENING_RANGE_PERIOD`. */
  const OpeningRangePeriod: nat := 1

  /** `BREAKOUT_BUFFER_PIPS`, and the buffer as a price distance (`* 0.0001`). */
  const BreakoutBufferPips: real := 0.5

  function Buffer(bufferPips: real): real {
    bufferPips * 0.0001
  }

  /** `DAILY_TARGET_PROFIT`, and the session window in seconds after midnight (00:00 to 22:00). */
  const DailyTargetProfit: real := 200.0
  const SessionStart: real := 0.0
  const SessionEnd: real := 79200.0

  // ---------------------------------------------------------------------
  // Opening range
  // ---------------------------------------------------------------------

  /** `c[key]`: a dict candle's value under `key`; Raised for an object or a missing key. */
  function Column(cs: seq<Record>, key: string): (r: Try<seq<Value>>)
    ensures r.Ok? <==> forall i :: 0 <= i < |cs| ==> cs[i].Dict? && key in cs[i].entries
    ensures r.Ok? ==> |r.value| == |cs| && forall i :: 0 <= i < |cs| ==> r.value[i] == cs[i].entries[key]
  {
    if forall i :: 0 <= i < |cs| ==> cs[i].Dict? && key in cs[i].entries then
      Ok(seq(|cs|, i requires 0 <= i < |cs| && cs[i].Dict? && key in cs[i].entries => cs[i].entries[key]))
    else Raised
  }

  predicate AllNumbers(vs: seq<Value>) {
    forall i :: 0 <= i < |vs| ==> Num(vs[i]).Some?
  }

  /**
   * Python's `max` over numbers: the first of the largest values (a later
   * value replaces the current one only when strictly greater).
   */
  function MaxOf(vs: seq<Value>): (m: Value)
    requires vs != [] && AllNumbers(vs)
    ensures m in vs && Num(m).Some?
    ensures forall i :: 0 <= i < |vs| ==> Num(vs[i]).value <= Num(m).value
  {
    if |vs| == 1 then vs[0]
    else
      var init := vs[..|vs| - 1];
      assert forall i :: 0 <= i < |init| ==> init[i] == vs[i];
      var b := MaxOf(init);
      if Num(vs[|vs| - 1]).value > Num(b).value then vs[|vs| - 1] else b
  }

  /** Python's `min` over numbers: the first of the smallest values. */
  function MinOf(vs: seq<Value>): (m: Value)
    requires vs != [] && AllNumbers(vs)
    ensures m in vs && Num(m).Some?
    ensures forall i :: 0 <= i < |vs| ==> Num(m).value <= Num(vs[i]).value
  {
    if |vs| == 1 then vs[0]
    else
      var init := vs[..|vs| - 1];
      assert forall i :: 0 <= i < |init| ==> init[i] == vs[i];
      var b := MinOf(init);
      if Num(vs[|vs| - 1]).value < Num(b).value then vs[|vs| - 1] else b
  }

  /**
   * `max`/`min` of one column: Raised on an empty column; a single value
   * is returned as it is (no comparison takes place); several values must
   * be numbers.
   */
  function Extreme(vs: seq<Value>, largest: bool): (r: Try<Value>)
    ensures r.Raised? <==> vs == [] || (|vs| > 1 && !AllNumbers(vs))
    ensures r.Ok? ==> r.value in vs
    ensures r.Ok? && AllNumbers(vs) ==>
              forall i :: 0 <= i < |vs| ==> (if largest then Num(vs[i]).value <= Num(r.value).value
                                             else Num(r.value).value <= Num(vs[i]).value)
  {
    if vs == [] then Raised
    else if |vs| == 1 then Ok(vs[0])
    else if !AllNumbers(vs) then Raised
    else if largest then Ok(MaxOf(vs)) else Ok(MinOf(vs))
  }

  /** `_opening_range`: the highest high and the lowest low of the first `period` candles. */
  function OpeningRange(candles: seq<Record>, period: nat): (r: Try<(Value, Value)>)
    ensures var opening := candles[..if period <= |candles| then period else |candles|];
            r.Ok? ==> (opening != [] &&
              forall i :: 0 <= i < |opening| ==> opening[i].Dict? && "high" in opening[i].entries && "low" in opening[i].entries)
  {
    var opening := candles[..if period <= |candles| then period else |candles|];
    match Column(opening, "high")
    case Raised => Raised
    case Ok(highs) =>
      match Extreme(highs, true)
      case Raised => Raised
      case Ok(high) =>
        match Column(opening, "low")
        case Raised => Raised
        case Ok(lows) =>
          match Extreme(lows, false)
          case Raised => Raised
          case Ok(low) => Ok((high, low))
  }

  /**
   * `_check_breakout`: BUY when the price is above the opening high plus
   * the buffer, else SELL when it is below the opening low minus the
   * buffer, else nothing. Raised where the range raises or a bound does
   * not add to the buffer (it is not a number).
   */
  function CheckBreakout(price: real, candles: seq<Record>, period: nat, bufferPips: real): (r: Try<Option<Side>>)
    ensures r.Ok? ==> OpeningRange(candles, period).Ok?
    ensures r.Ok? && r.value == Some(Buy) <==>
              OpeningRange(candles, period).Ok? && Num(OpeningRange(candles, period).value.0).Some? &&
              price > Num(OpeningRange(candles, period).value.0).value + Buffer(bufferPips)
    ensures r.Ok? && r.value == Some(Sell) ==>
              Num(OpeningRange(candles, period).value.1).Some? &&
              price < Num(OpeningRange(candles, period).value.1).value - Buffer(bufferPips)
    ensures r.Ok? && r.value.None? ==>
              Num(OpeningRange(candles, period).value.0).Some? && Num(OpeningRange(candles, period).value.1).Some? &&
              Num(OpeningRange(candles, period).value.1).value - Buffer(bufferPips) <= price <=
              Num(OpeningRange(candles, period).value.0).value + Buffer(bufferPips)
  {
    var buffer := Buffer(bufferPips);
    match OpeningRange(candles, period)
    case Raised => Raised
    case Ok((high, low)) =>
      match Num(high)
      case None => Raised
      case Some(h) =>
        if price > h + buffer then Ok(Some(Buy))
        else
          match Num(low)
          case None => Raised
          case Some(l) =>
            if price < l - buffer then Ok(Some(Sell)) else Ok(None)
  }

  /**
   * A breakout keeps its direction as the price moves further out: a BUY
   * at one price is a BUY at any higher price, and a SELL at any lower
   * price is a SELL whenever the opening range itself is not inverted
   * beyond the buffers.
   */
  lemma BreakoutMonotone(p1: real, p2: real, candles: seq<Record>, period: nat, bufferPips: real)
    requires p1 <= p2
    ensures CheckBreakout(p1, candles, period, bufferPips) == Ok(Some(Buy)) ==>
            CheckBreakout(p2, candles, period, bufferPips) == Ok(Some(Buy))
    ensures CheckBreakout(p2, candles, period, bufferPips) == Ok(Some(Sell)) &&
            Num(OpeningRange(candles, period).value.1).value - Buffer(bufferPips) <=
              Num(OpeningRange(candles, period).value.0).value + Buffer(bufferPips) ==>
            CheckBreakout(p1, candles, period, bufferPips) == Ok(Some(Sell))
  {
  }

  /**
   * With a single opening candle (the configured period) of numeric high
   * and low, the range is that candle's high and low.
   */
  lemma SingleCandleRange(candles: seq<Record>)
    requires candles != [] && candles[0].Dict? && "high" in candles[0].entries && "low" in candles[0].entries
    ensures OpeningRange(candles, OpeningRangePeriod) == Ok((candles[0].entries["high"], candles[0].entries["low"]))
  {
    var opening := candles[..1];
    assert opening == [candles[0]];
    var highs := Column(opening, "high");
    var lows := Column(opening, "low");
    assert highs.Ok? && |highs.value| == 1 && highs.value[0] == candles[0].entries["high"];
    assert lows.Ok? && |lows.value| == 1 && lows.value[0] == candles[0].entries["low"];
    assert highs.value == [candles[0].entries["high"]];
    assert lows.value == [candles[0].entries["low"]];
  }

  /** A dict candle whose high and low are numbers. */
  predicate NumericBar(c: Record) {
    c.Dict? && "high" in c.entries && "low" in c.entries &&
    Num(c.entries["high"]).Some? && Num(c.entries["low"]).Some?
  }

  /** The range `(high, low)` reaches at least the candle's high and at most its low. */
  predicate Spans(range: (Value, Value), c: Record)
    requires NumericBar(c)
  {
    Num(range.0).Some? && Num(range.1).Some? &&
    Num(range.0).value >= Num(c.entries["high"]).value &&
    Num(range.1).value <= Num(c.entries["low"]).value
  }

  /** The opening range of numeric candles spans every opening candle. */
  lemma RangeSpansOpening(candles: seq<Record>, period: nat)
    requires forall i :: 0 <= i < period && i < |candles| ==> NumericBar(candles[i])
    requires OpeningRange(candles, period).Ok?
    ensures forall i :: 0 <= i < period && i < |candles| ==> Spans(OpeningRange(candles, period).value, candles[i])
  {
    var n := if period <= |candles| then period else |candles|;
    var opening := candles[..n];
    var highs := Column(opening, "high");
    var lows := Column(opening, "low");
    assert highs.Ok? && lows.Ok?;
    assert AllNumbers(highs.value) by {
      forall j | 0 <= j < |highs.value|
        ensures Num(highs.value[j]).Some?
      {
        assert highs.value[j] == candles[j].entries["high"];
      }
    }
    assert AllNumbers(lows.value) by {
      forall j | 0 <= j < |lows.value|
        ensures Num(lows.value[j]).Some?
      {
        assert lows.value[j] == candles[j].entries["low"];
      }
    }
    var high := Extreme(highs.value, true);
    var low := Extreme(lows.value, false);
    assert OpeningRange(candles, period) == Ok((high.value, low.value));
    forall i | 0 <= i < period && i < |candles|
      ensures Spans(OpeningRange(candles, period).value, candles[i])
    {
      assert highs.value[i] == candles[i].entries["high"];
      assert lows.value[i] == candles[i].entries["low"];
    }
  }

  // ---------------------------------------------------------------------
  // Trading window
  // ---------------------------------------------------------------------

  /**
   * `_can_trade_now`: trading stops once the daily profit reaches the
   * target, and outside the session window (both ends included).
   * `timeOfDay` is the clock reading in seconds after midnight.
   */
  function CanTradeNow(timeOfDay: real, dailyProfit: real): (ok: bool)
    ensures ok <==> dailyProfit < DailyTargetProfit && SessionStart <= timeOfDay <= SessionEnd
  {
    if dailyProfit >= DailyTargetProfit then false
    else if timeOfDay < SessionStart || timeOfDay > SessionEnd then false
    else true
  }

  // ---------------------------------------------------------------------
  // The scan
  // ---------------------------------------------------------------------

  /**
   * What the strategy asks of market data and the broker: the symbols
   * `scan_symbols` offers, the ask of a symbol's tick (None without a
   * tick), its candles, the SL/TP pip distances of
   * `calculate_dynamic_sl_tp` (Raised where that raises), and the symbol
   * info.
   */
  datatype Market = Market(
    scan: seq<string>,
    ask: string -> Option<real>,
    candles: string -> seq<Record>,
    stops: seq<Record> -> Try<(real, real)>,
    info: string -> Option<SymbolInfo>)

  datatype Candidate = Candidate(symbol: string, side: Side, price: real, slPips: real, tpPips: real)

  function CandidateSymbol(c: Candidate): string { c.symbol }

  /**
   * One symbol as written: without a tick it is skipped; with one, the
   * candle fetch is called without its required bar count and raises.
   */
  function ScanSymbolAsWritten(market: Market, symbol: string): (r: Try<Option<Candidate>>)
    ensures r.Raised? <==> market.ask(symbol).Some?
    ensures r.Ok? ==> r.value.None?
  {
    if market.ask(symbol).None? then Ok(None) else Raised
  }

  /**
   * One symbol with the candles fetched: skipped without a tick or a
   * breakout; otherwise a candidate at the ask, with the dynamic stop
   * distances.
   */
  function ScanSymbol(market: Market, symbol: string): (r: Try<Option<Candidate>>)
    ensures market.ask(symbol).None? ==> r == Ok(None)
    ensures r.Ok? && r.value.Some? ==>
              var c := r.value.value;
              c.symbol == symbol && market.ask(symbol) == Some(c.price) &&
              CheckBreakout(c.price, market.candles(symbol), OpeningRangePeriod, BreakoutBufferPips) == Ok(Some(c.side))
  {
    match market.ask(symbol)
    case None => Ok(None)
    case Some(price) =>
      var candles := market.candles(symbol);
      match market.stops(candles)
      case Raised => Raised
      case Ok((slPips, tpPips)) =>
        match CheckBreakout(price, candles, OpeningRangePeriod, BreakoutBufferPips)
        case Raised => Raised
        case Ok(None) => Ok(None)
        case Ok(Some(side)) => Ok(Some(Candidate(symbol, side, price, slPips, tpPips)))
  }

  /** The scan loop over `symbols`, as written (`asWritten`) or with the candles fetched. */
  function ScanSpec(market: Market, symbols: seq<string>, asWritten: bool): Try<seq<Candidate>> {
    if symbols == [] then Ok([])
    else
      match ScanSpec(market, symbols[..|symbols| - 1], asWritten)
      case Raised => Raised
      case Ok(cs) =>
        var last := symbols[|symbols| - 1];
        match if asWritten then ScanSymbolAsWritten(market, last) else ScanSymbol(market, last)
        case Raised => Raised
        case Ok(None) => Ok(cs)
        case Ok(Some(c)) => Ok(cs + [c])
  }

  /** As written, the scan raises exactly when some scanned symbol has a tick, and otherwise finds nothing. */
  lemma {:induction false} AsWrittenScanRaisesOnAnyTick(market: Market, symbols: seq<string>)
    ensures ScanSpec(market, symbols, true).Raised? <==> exists i :: 0 <= i < |symbols| && market.ask(symbols[i]).Some?
    ensures ScanSpec(market, symbols, true).Ok? ==> ScanSpec(market, symbols, true).value == []
  {
    if symbols != [] {
      var n := |symbols| - 1;
      AsWrittenScanRaisesOnAnyTick(market, symbols[..n]);
      if exists i :: 0 <= i < n && market.ask(symbols[..n][i]).Some? {
        var i :| 0 <= i < n && market.ask(symbols[..n][i]).Some?;
        assert symbols[i] == symbols[..n][i];
      }
      if exists i :: 0 <= i < |symbols| && market.ask(symbols[i]).Some? {
        var i :| 0 <= i < |symbols| && market.ask(symbols[i]).Some?;
        if i < n {
          assert symbols[..n][i] == symbols[i];
        }
      }
    }
  }

  /** A concrete scan: one symbol with a tick makes the written strategy raise. */
  lemma AnyTickRaises(market: Market)
    requires market.scan == ["EURUSD"] && market.ask("EURUSD") == Some(1.1)
    ensures ScanSpec(market, market.scan, true) == Raised
  {
    assert market.scan[..0] == [];
  }

  /** Every candidate of the corrected scan is a breakout of a scanned symbol at its ask. */
  lemma {:induction false} ScanCandidatesBreakOut(market: Market, symbols: seq<string>)
    ensures var r := ScanSpec(market, symbols, false);
            r.Ok? ==> (|r.value| <= |symbols| &&
              forall i :: 0 <= i < |r.value| ==>
                r.value[i].symbol in symbols && market.ask(r.value[i].symbol) == Some(r.value[i].price) &&
                CheckBreakout(r.value[i].price, market.candles(r.value[i].symbol), OpeningRangePeriod, BreakoutBufferPips) ==
                  Ok(Some(r.value[i].side)))
  {
    if symbols != [] {
      var n := |symbols| - 1;
      ScanCandidatesBreakOut(market, symbols[..n]);
      var r := ScanSpec(market, symbols, false);
      if r.Ok? {
        var cs := ScanSpec(market, symbols[..n], false).value;
        forall i | 0 <= i < |cs|
          ensures cs[i].symbol in symbols
        {
          var k :| 0 <= k < n && symbols[..n][k] == cs[i].symbol;
          assert symbols[k] == cs[i].symbol;
        }
      }
    }
  }

  // ---------------------------------------------------------------------
  // Sizing
  // ---------------------------------------------------------------------

  /** A final order (its constant `profit` of 0 left out). */
  datatype BreakoutOrder = BreakoutOrder(symbol: string, side: Side, lot: real, openPrice: real, sl: real, tp: real)

  function OrderSymbol(o: BreakoutOrder): string { o.symbol }

  /**
   * One candidate of the sizing loop: dropped when its lot is not
   * positive, otherwise its SL/TP prices from the pip distances (the
   * broker's default units are pips). No minimum-stop push here.
   */
  function SizeOne(market: Market, balance: real, risk: real, c: Candidate): (r: Option<BreakoutOrder>)
    ensures r.None? <==> Entry.LotFor(balance, c.slPips, market.info(c.symbol), risk) <= 0.0
    ensures r.Some? ==>
              var info := market.info(c.symbol);
              r.value.symbol == c.symbol && r.value.side == c.side && r.value.openPrice == c.price &&
              r.value.lot == Entry.LotFor(balance, c.slPips, info, risk) && r.value.lot > 0.0 && info.Some? &&
              r.value.lot >= info.value.volumeMin &&
              (info.value.volumeMin <= info.value.volumeMax ==> r.value.lot <= info.value.volumeMax) &&
              Ok((r.value.sl, r.value.tp)) == CalculateSlTp(Entry.SideText(c.side), c.price, c.slPips, c.tpPips, "pips", info, c.symbol)
  {
    var info := market.info(c.symbol);
    var lot := Entry.LotFor(balance, c.slPips, info, risk);
    if lot <= 0.0 then None
    else
      Entry.PositiveLotWithinLimits(balance, c.slPips, info, risk);
      var stops := CalculateSlTp(Entry.SideText(c.side), c.price, c.slPips, c.tpPips, "pips", info, c.symbol).value;
      Some(BreakoutOrder(c.symbol, c.side, lot, c.price, stops.0, stops.1))
  }

  /** One candidate's sizing as a step of the batch. */
  function Sizer(market: Market, balance: real, risk: real): (f: Candidate -> Option<BreakoutOrder>)
    ensures forall c :: f(c) == SizeOne(market, balance, risk, c)
  {
    (c: Candidate) => SizeOne(market, balance, risk, c)
  }

  /** The sizing loop: the orders of the candidates whose lot is positive, in order. */
  function SizeSpec(market: Market, balance: real, risk: real, cands: seq<Candidate>): (r: seq<BreakoutOrder>)
    ensures |r| <= |cands|
  {
    FilterMap(cands, Sizer(market, balance, risk))
  }

  /** The candidate `symbol` broke out towards `side` at its ask `price`, and was scanned. */
  predicate BrokeOut(market: Market, symbol: string, price: real, side: Side) {
    symbol in market.scan && market.ask(symbol) == Some(price) &&
    CheckBreakout(price, market.candles(symbol), OpeningRangePeriod, BreakoutBufferPips) == Ok(Some(side))
  }

  /** The symbols of a candidate list. */
  function CandidateSymbols(cands: seq<Candidate>): (syms: seq<string>)
    ensures |syms| == |cands| && forall i :: 0 <= i < |cands| ==> syms[i] == cands[i].symbol
  {
    seq(|cands|, i requires 0 <= i < |cands| => cands[i].symbol)
  }

  /** What one sized order keeps of its candidate. */
  predicate SizedFrom(market: Market, cands: seq<Candidate>, o: BreakoutOrder) {
    o.symbol in CandidateSymbols(cands) && BrokeOut(market, o.symbol, o.openPrice, o.side) &&
    o.lot > 0.0 && market.info(o.symbol).Some? && o.lot >= market.info(o.symbol).value.volumeMin
  }

  /** Each sized order is a scanned breakout with a positive lot inside the volume minimum. */
  lemma SizedOrdersBreakOut(market: Market, balance: real, risk: real, cands: seq<Candidate>)
    requires forall i :: 0 <= i < |cands| ==> BrokeOut(market, cands[i].symbol, cands[i].price, cands[i].side)
    ensures var r := SizeSpec(market, balance, risk, cands);
            forall j :: 0 <= j < |r| ==> SizedFrom(market, cands, r[j])
  {
    var f := Sizer(market, balance, risk);
    var r := SizeSpec(market, balance, risk, cands);
    FilterMapOrigin(cands, f);
    forall j | 0 <= j < |r|
      ensures SizedFrom(market, cands, r[j])
    {
      assert MadeFrom(cands, f, r[j]);
      var i :| 0 <= i < |cands| && f(cands[i]) == Some(r[j]);
      assert SizeOne(market, balance, risk, cands[i]) == Some(r[j]);
      assert CandidateSymbols(cands)[i] == r[j].symbol;
    }
  }

  /** Distinct candidate symbols give distinct order symbols. */
  lemma SizedOrdersUnique(market: Market, balance: real, risk: real, cands: seq<Candidate>)
    requires KeysUnique(cands, CandidateSymbol)
    ensures KeysUnique(SizeSpec(market, balance, risk, cands), OrderSymbol)
  {
    var f := Sizer(market, balance, risk);
    forall i | 0 <= i < |cands| && f(cands[i]).Some?
      ensures OrderSymbol(f(cands[i]).value) == CandidateSymbol(cands[i])
    {
      assert f(cands[i]) == SizeOne(market, balance, risk, cands[i]);
    }
    FilterMapKeepsKeysUnique(cands, f, CandidateSymbol, OrderSymbol);
  }

  /**
   * Sizing keeps what the candidates promise: each order is a breakout
   * with a positive lot inside the volume limits, and distinct candidate
   * symbols stay distinct.
   */
  lemma SizedOrdersFromCandidates(market: Market, balance: real, risk: real, cands: seq<Candidate>)
    requires forall i :: 0 <= i < |cands| ==> BrokeOut(market, cands[i].symbol, cands[i].price, cands[i].side)
    ensures var r := SizeSpec(market, balance, risk, cands);
            (KeysUnique(cands, CandidateSymbol) ==> KeysUnique(r, OrderSymbol)) &&
            forall j :: 0 <= j < |r| ==> SizedFrom(market, cands, r[j])
  {
    SizedOrdersBreakOut(market, balance, risk, cands);
    if KeysUnique(cands, CandidateSymbol) {
      SizedOrdersUnique(market, balance, risk, cands);
    }
  }

  /**
   * `generate_signals` (`asWritten` picks the scan as written or with the
   * candles fetched): the scanned symbols' candidates, deduplicated by
   * symbol, sized with an even share of LOT_RISK_PERCENT.
   */
  function GenerateSpec(market: Market, balance: real, asWritten: bool): (r: Try<seq<BreakoutOrder>>)
    ensures asWritten ==> (r.Raised? <==> exists i :: 0 <= i < |market.scan| && market.ask(market.scan[i]).Some?)
    ensures asWritten && r.Ok? ==> r.value == []
  {
    AsWrittenScanRaisesOnAnyTick(market, market.scan);
    match ScanSpec(market, market.scan, asWritten)
    case Raised => Raised
    case Ok(cands) =>
      var unique := DedupBy(cands, CandidateSymbol);
      if |unique| == 0 then Ok([])
      else Ok(SizeSpec(market, balance, RiskShare(LotRiskPercent, |unique|), unique))
  }

  /**
   * Every order of the corrected scan is for a scanned symbol that broke
   * out in the order's direction at its open price, with a positive lot
   * inside the volume limits, and no symbol is ordered twice.
   */
  lemma GeneratedOrdersBreakOut(market: Market, balance: real)
    ensures var r := GenerateSpec(market, balance, false);
            r.Ok? ==> (KeysUnique(r.value, OrderSymbol) &&
              forall j :: 0 <= j < |r.value| ==>
                var o := r.value[j];
                var info := market.info(o.symbol);
                o.symbol in market.scan && market.ask(o.symbol) == Some(o.openPrice) &&
                CheckBreakout(o.openPrice, market.candles(o.symbol), OpeningRangePeriod, BreakoutBufferPips) == Ok(Some(o.side)) &&
                o.lot > 0.0 && info.Some? && o.lot >= info.value.volumeMin)
  {
    var sc := ScanSpec(market, market.scan, false);
    ScanCandidatesBreakOut(market, market.scan);
    if sc.Ok? {
      var cands := sc.value;
      var unique := DedupBy(cands, CandidateSymbol);
      DedupLastWins(cands, CandidateSymbol);
      if |unique| > 0 {
        forall i | 0 <= i < |unique|
          ensures BrokeOut(market, unique[i].symbol, unique[i].price, unique[i].side)
        {
          assert unique[i] in cands;
        }
        SizedOrdersFromCandidates(market, balance, RiskShare(LotRiskPercent, |unique|), unique);
      }
    }
  }

  /** Every candidate a successful scan meets is kept, in the scan's result. */
  lemma {:induction false} ScanComplete(market: Market, symbols: seq<string>, asWritten: bool, i: int)
    requires 0 <= i < |symbols|
    ensures var r := ScanSpec(market, symbols, asWritten);
            var c := if asWritten then ScanSymbolAsWritten(market, symbols[i]) else ScanSymbol(market, symbols[i]);
            r.Ok? ==> c.Ok? && (c.value.Some? ==> c.value.value in r.value)
  {
    var n := |symbols| - 1;
    if i < n {
      ScanComplete(market, symbols[..n], asWritten, i);
      assert symbols[..n][i] == symbols[i];
    }
  }

  /**
   * No breakout is lost: when the corrected scan succeeds, each candidate
   * it finds that is the last for its symbol, and whose lot at the even
   * risk share is positive, is ordered.
   */
  lemma GeneratedOrdersComplete(market: Market, balance: real, cands: seq<Candidate>, i: int)
    requires ScanSpec(market, market.scan, false) == Ok(cands)
    requires 0 <= i < |cands| && LastOfKey(cands, i, CandidateSymbol)
    ensures var share := RiskShare(LotRiskPercent, |DedupBy(cands, CandidateSymbol)|);
            var o := SizeOne(market, balance, share, cands[i]);
            o.Some? ==> GenerateSpec(market, balance, false) == Ok(SizeSpec(market, balance, share, DedupBy(cands, CandidateSymbol))) &&
                        o.value in GenerateSpec(market, balance, false).value
  {
    var unique := DedupBy(cands, CandidateSymbol);
    DedupLastWins(cands, CandidateSymbol);
    var share := RiskShare(LotRiskPercent, |unique|);
    if SizeOne(market, balance, share, cands[i]).Some? {
      assert cands[i] in unique;
      var k :| 0 <= k < |unique| && unique[k] == cands[i];
      var f := Sizer(market, balance, share);
      assert f(unique[k]) == SizeOne(market, balance, share, cands[i]);
      FilterMapComplete(unique, f, k);
      GenerateOfScan(market, balance, cands);
    }
  }

  /** A successful corrected scan with candidates sizes its deduplicated candidates. */
  lemma GenerateOfScan(market: Market, balance: real, cands: seq<Candidate>)
    requires ScanSpec(market, market.scan, false) == Ok(cands)
    requires DedupBy(cands, CandidateSymbol) != []
    ensures var unique := DedupBy(cands, CandidateSymbol);
            GenerateSpec(market, balance, false) == Ok(SizeSpec(market, balance, RiskShare(LotRiskPercent, |unique|), unique))
  {
  }

  /** `BreakoutStrategy` of the strategies package: the symbols of its last scan. */
  class BreakoutScanner {
    var lastScannedSymbols: seq<string>

    constructor()
      ensures lastScannedSymbols == []
    {
      lastScannedSymbols := [];
    }

    /** `generate_signals`, with the candles fetched; the scanned symbols are always recorded. */
    method GenerateSignals(market: Market, balance: real) returns (r: Try<seq<BreakoutOrder>>)
      modifies this
      ensures r == GenerateSpec(market, balance, false)
      ensures lastScannedSymbols == market.scan
    {
      lastScannedSymbols := market.scan;
      var signals := ScanSymbols(market, market.scan);
      if signals.Raised? {
        return Raised;
      }
      var unique := DedupBy(signals.value, CandidateSymbol);
      if |unique| == 0 {
        return Ok([]);
      }
      var orders := SizeCandidates(market, balance, RiskShare(LotRiskPercent, |unique|), unique);
      return Ok(orders);
    }
  }

  /** The scan loop with the candles fetched. */
  method ScanSymbols(market: Market, symbols: seq<string>) returns (r: Try<seq<Candidate>>)
    ensures r == ScanSpec(market, symbols, false)
  {
    var signals: seq<Candidate> := [];
    var i := 0;
    while i < |symbols|
      invariant 0 <= i <= |symbols|
      invariant ScanSpec(market, symbols[..i], false) == Ok(signals)
    {
      assert symbols[..i + 1][..i] == symbols[..i];
      var step := ScanSymbol(market, symbols[i]);
      if step.Raised? {
        RaisedStaysRaised(market, symbols, i + 1);
        return Raised;
      }
      if step.value.Some? {
        signals := signals + [step.value.value];
      }
      i := i + 1;
    }
    assert symbols[..i] == symbols;
    return Ok(signals);
  }

  /** The sizing loop. */
  method SizeCandidates(market: Market, balance: real, risk: real, unique: seq<Candidate>) returns (orders: seq<BreakoutOrder>)
    ensures orders == SizeSpec(market, balance, risk, unique)
  {
    orders := [];
    var j := 0;
    while j < |unique|
      invariant 0 <= j <= |unique|
      invariant SizeSpec(market, balance, risk, unique[..j]) == orders
    {
      assert unique[..j + 1][..j] == unique[..j];
      FilterMapStep(unique[..j + 1], Sizer(market, balance, risk));
      var sized := SizeOne(market, balance, risk, unique[j]);
      if sized.Some? {
        orders := orders + [sized.value];
      }
      j := j + 1;
    }
    assert unique[..j] == unique;
  }

  /** A symbol that raises ends the whole scan. */
  lemma {:induction false} RaisedStaysRaised(market: Market, symbols: seq<string>, i: nat)
    requires 0 < i <= |symbols|
    requires ScanSpec(market, symbols[..i], false).Raised?
    ensures ScanSpec(market, symbols, false).Raised?
    decreases |symbols| - i
  {
    if i < |symbols| {
      assert symbols[..i + 1][..i] == symbols[..i];
      RaisedStaysRaised(market, symbols, i + 1);
    } else {
      assert symbols[..i] == symbols;
    }
  }
}
