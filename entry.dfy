// The entry side of the bot: the multi-timeframe scanner that turns
// agreeing bias, confirmation and entry signals into sized orders with
// SL/TP prices, and the single-signal entry helper that sizes one signal
// and hands it to the trade executor.

module Entry {
  import opened Base
  import opened SignalGeneration
  import opened Broker
  import Risk
  import opened SignalBatch
  import TradeExecution

  // ---------------------------------------------------------------------
  // Settings and collaborators
  // ---------------------------------------------------------------------

  /**
   * The settings the scan reads: SYMBOLS, MAX_SYMBOLS, DAILY_TARGET_PROFIT,
   * LOT_RISK_PERCENT, MIN_CANDLES_FOR_INDICATORS, the three timeframes and
   * the per-timeframe strong strategy's configuration.
   */
  datatype Settings = Settings(
    symbols: seq<string>,
    maxSymbols: nat,
    dailyTargetProfit: real,
    lotRiskPercent: real,
    minCandles: int,
    multi: MultiConfig,
    strong: StrongConfig)

  const DefaultSettings: Settings :=
    Settings(["EURUSD", "USDJPY"], 10, 200.0, LotRiskPercent, 202, DefaultMultiConfig, DefaultStrongConfig)

  /**
   * What the scanner asks of market data and the broker: the closed
   * candles of a symbol on a timeframe (None where there are none), the
   * indicator functions, the stop-loss price distance of
   * `calculate_dynamic_sl_tp`, and the broker's symbol info.
   */
  datatype Market = Market(
    candles: (string, int) -> Option<seq<Record>>,
    indicators: seq<Record> -> Indicators,
    slDistance: seq<Record> -> Value,
    info: string -> Option<SymbolInfo>)

  /** The volume limits `calculate_lot_size` reads from the symbol info. */
  function Limits(info: Option<SymbolInfo>): (l: Option<Risk.VolumeLimits>)
    ensures l.None? <==> info.None?
    ensures l.Some? ==> l.value.volumeMin == info.value.volumeMin && l.value.volumeMax == info.value.volumeMax
  {
    match info
    case None => None
    case Some(si) => Some(Risk.VolumeLimits(si.volumeMin, si.volumeMax))
  }

  /** `risk_manager.calculate_lot_size` for a symbol, with the broker's lot value. */
  function LotFor(balance: real, slPips: real, info: Option<SymbolInfo>, riskPercent: real): real {
    Risk.LotSize(balance, slPips, LotValue(info), riskPercent, Limits(info))
  }

  /** A positive lot only comes with symbol info, and lies within its volume limits. */
  lemma PositiveLotWithinLimits(balance: real, slPips: real, info: Option<SymbolInfo>, riskPercent: real)
    requires LotFor(balance, slPips, info, riskPercent) > 0.0
    ensures info.Some?
    ensures var lot := LotFor(balance, slPips, info, riskPercent);
            lot >= info.value.volumeMin && (info.value.volumeMin <= info.value.volumeMax ==> lot <= info.value.volumeMax)
  {
  }

  // ---------------------------------------------------------------------
  // Stop distances
  // ---------------------------------------------------------------------

  /**
   * `_calculate_dynamic_sl_tp`: the stop-loss price distance in pips (left
   * as a price distance when the pip size is 0), and a take profit ten
   * times as far.
   */
  function DynamicSlTp(distance: real, pip: real): (r: (real, real))
    ensures r.1 == 10.0 * r.0
    ensures pip != 0.0 ==> r.0 * pip == distance
    ensures pip == 0.0 ==> r.0 == distance
  {
    var sl := if pip != 0.0 then distance / pip else distance;
    (sl, sl * 10.0)
  }

  /**
   * The minimum-stop push: a stop closer than `minStop` to the price moves
   * to exactly `minStop` below it (`below`) or above it; a stop already
   * far enough stays.
   */
  function ClampStop(price: real, stop: real, minStop: real, below: bool): (r: real)
    ensures Abs(price - r) >= minStop
    ensures Abs(price - stop) >= minStop ==> r == stop
    ensures r != stop ==> r == (if below then price - minStop else price + minStop)
  {
    if Abs(price - stop) < minStop then (if below then price - minStop else price + minStop) else stop
  }

  // ---------------------------------------------------------------------
  // The scan
  // ---------------------------------------------------------------------

  /** `SYMBOLS[:MAX_SYMBOLS]`. */
  function Scanned(st: Settings): (syms: seq<string>)
    ensures |syms| <= st.maxSymbols && |syms| <= |st.symbols|
    ensures forall i :: 0 <= i < |syms| ==> syms[i] == st.symbols[i]
  {
    if st.maxSymbols <= |st.symbols| then st.symbols[..st.maxSymbols] else st.symbols
  }

  /** The timeframes in the order they are fetched: entry, confirmation, bias. */
  function Timeframes(m: MultiConfig): seq<int> {
    [m.tfEntry, m.tfConfirm, m.tfBias]
  }

  /** `not cs or len(cs) < min_candles` is false. */
  predicate Enough(cs: Option<seq<Record>>, minCandles: int) {
    cs.Some? && cs.value != [] && |cs.value| >= minCandles
  }

  /**
   * `candles_by_tf` once every timeframe has enough candles; None when one
   * of them falls short and the symbol is skipped.
   */
  function FetchSpec(market: Market, symbol: string, tfs: seq<int>, minCandles: int): (r: Option<seq<(TfKey, Option<seq<Record>>)>>)
    ensures r.Some? <==> forall k :: 0 <= k < |tfs| ==> Enough(market.candles(symbol, tfs[k]), minCandles)
    ensures r.Some? ==> (|r.value| == |tfs| &&
              forall k :: 0 <= k < |tfs| ==> r.value[k] == (KInt(tfs[k]), market.candles(symbol, tfs[k])))
  {
    if tfs == [] then Some([])
    else
      var n := |tfs| - 1;
      var prev := FetchSpec(market, symbol, tfs[..n], minCandles);
      assert forall k :: 0 <= k < n ==> tfs[..n][k] == tfs[k];
      var cs := market.candles(symbol, tfs[n]);
      if prev.None? then None
      else if !Enough(cs, minCandles) then None
      else Some(prev.value + [(KInt(tfs[n]), cs)])
  }

  /** The scanner's fetch loop, which stops at the first timeframe that falls short. */
  method FetchTimeframes(market: Market, symbol: string, tfs: seq<int>, minCandles: int)
    returns (pairs: Option<seq<(TfKey, Option<seq<Record>>)>>)
    ensures pairs == FetchSpec(market, symbol, tfs, minCandles)
  {
    var acc: seq<(TfKey, Option<seq<Record>>)> := [];
    var i := 0;
    while i < |tfs|
      invariant 0 <= i <= |tfs|
      invariant FetchSpec(market, symbol, tfs[..i], minCandles) == Some(acc)
    {
      assert tfs[..i + 1][..i] == tfs[..i];
      var cs := market.candles(symbol, tfs[i]);
      if !Enough(cs, minCandles) {
        NoneStaysNone(market, symbol, tfs, minCandles, i + 1);
        return None;
      }
      acc := acc + [(KInt(tfs[i]), cs)];
      i := i + 1;
    }
    assert tfs[..i] == tfs;
    return Some(acc);
  }

  /** Once a prefix of the timeframes falls short, every longer one does. */
  lemma NoneStaysNone(market: Market, symbol: string, tfs: seq<int>, minCandles: int, i: nat)
    requires 0 < i <= |tfs| && !Enough(market.candles(symbol, tfs[i - 1]), minCandles)
    ensures FetchSpec(market, symbol, tfs, minCandles).None?
  {
    assert !Enough(market.candles(symbol, tfs[i - 1]), minCandles);
  }

  /** Each of the three timeframes reads back its own fetched candles from `candles_by_tf`. */
  lemma FetchedLookup(market: Market, symbol: string, m: MultiConfig, minCandles: int, k: int)
    requires 0 <= k < 3
    requires FetchSpec(market, symbol, Timeframes(m), minCandles).Some?
    ensures Enough(market.candles(symbol, Timeframes(m)[k]), minCandles)
    ensures TfCandles(FetchSpec(market, symbol, Timeframes(m), minCandles).value, Timeframes(m)[k]) ==
            market.candles(symbol, Timeframes(m)[k]).value
  {
    var tfs := Timeframes(m);
    var pairs := FetchSpec(market, symbol, tfs, minCandles).value;
    assert pairs[0] == (KInt(tfs[0]), market.candles(symbol, tfs[0]));
    assert pairs[1] == (KInt(tfs[1]), market.candles(symbol, tfs[1]));
    assert pairs[2] == (KInt(tfs[2]), market.candles(symbol, tfs[2]));
    assert pairs[1..][1..] == [pairs[2]];
    assert Enough(market.candles(symbol, tfs[k]), minCandles);
    var tf := tfs[k];
    if tf == tfs[0] {
      assert IntKeyValue(pairs, tf) == Some(market.candles(symbol, tfs[0]));
    } else if tf == tfs[1] {
      assert IntKeyValue(pairs, tf) == IntKeyValue(pairs[1..], tf) == Some(market.candles(symbol, tfs[1]));
    } else {
      assert IntKeyValue(pairs[1..][1..], tf) == Some(market.candles(symbol, tfs[2]));
      assert IntKeyValue(pairs, tf) == Some(market.candles(symbol, tfs[2]));
    }
  }

  /** A candidate signal: one symbol's agreed direction, entry price, stop distances and timeframe context. */
  datatype Candidate = Candidate(
    symbol: string,
    side: Side,
    price: Value,
    slPips: real,
    tpPips: real,
    bias: Label,
    confirm: Label,
    entry: Label,
    confidence: real)

  function CandidateSymbol(c: Candidate): string { c.symbol }

  function SideText(side: Side): string {
    if side == Buy then "BUY" else "SELL"
  }

  /** The three timeframes all point the candidate's way. */
  predicate Agrees(bias: Label, confirm: Label, entry: Label, side: Side) {
    bias == LabelOfSide(side) && confirm == LabelOfSide(side) && entry == LabelOfSide(side)
  }

  /** The multi-timeframe strategy the scanner wraps: the strong rule on each timeframe. */
  function ScanSignal(st: Settings, market: Market, pairs: seq<(TfKey, Option<seq<Record>>)>): Try<MultiSignal> {
    MultiGenerate(Some(st.strong.defaultSymbol), st.multi, pairs, StrongBase(st.strong, market.indicators))
  }

  /**
   * One symbol of the scan, after its candles were fetched: nothing when
   * a timeframe fell short or the multi-timeframe signal is not buy or
   * sell; otherwise the entry timeframe's last close as the price and the
   * dynamic stop distances. Raised where the signal raises, the last entry
   * candle has no close, or the stop distance does not convert.
   */
  function ScanFetched(st: Settings, market: Market, symbol: string, fetched: Option<seq<(TfKey, Option<seq<Record>>)>>): (r: Try<Option<Candidate>>)
    requires fetched == FetchSpec(market, symbol, Timeframes(st.multi), st.minCandles)
    ensures fetched.None? ==> r == Ok(None)
    ensures r.Ok? && r.value.Some? ==>
              var c := r.value.value;
              var ms := ScanSignal(st, market, fetched.value);
              c.symbol == symbol && ms.Ok? && ms.value.MultiDecided? &&
              ms.value.final == LabelOfSide(c.side) && ms.value.pullbackCompleted &&
              Agrees(c.bias, c.confirm, c.entry, c.side) && c.tpPips == 10.0 * c.slPips
  {
    match fetched
    case None => Ok(None)
    case Some(pairs) =>
      match ScanSignal(st, market, pairs)
      case Raised => Raised
      case Ok(ms) =>
        if !ms.MultiDecided? || ms.final == LHold then Ok(None)
        else
          assert Enough(market.candles(symbol, Timeframes(st.multi)[0]), st.minCandles);
          var ce := market.candles(symbol, st.multi.tfEntry).value;
          var last := Last(ce);
          if !(last.Dict? && "close" in last.entries) then Raised
          else
            match FloatOf(market.slDistance(ce))
            case None => Raised
            case Some(d) =>
              var stops := DynamicSlTp(d, PipSize(market.info(symbol), symbol));
              var side := if ms.final == LBuy then Buy else Sell;
              Ok(Some(Candidate(symbol, side, last.entries["close"], stops.0, stops.1,
                                ms.bias, ms.confirm, ms.entry, ms.confidence)))
  }

  function ScanSymbol(st: Settings, market: Market, symbol: string): (r: Try<Option<Candidate>>)
    ensures r.Ok? && r.value.Some? ==>
              r.value.value.symbol == symbol &&
              Agrees(r.value.value.bias, r.value.value.confirm, r.value.value.entry, r.value.value.side)
  {
    ScanFetched(st, market, symbol, FetchSpec(market, symbol, Timeframes(st.multi), st.minCandles))
  }

  /** A symbol with a timeframe short of candles is skipped without a signal. */
  lemma ShortTimeframeSkipsSymbol(st: Settings, market: Market, symbol: string, k: int)
    requires 0 <= k < 3 && !Enough(market.candles(symbol, Timeframes(st.multi)[k]), st.minCandles)
    ensures ScanSymbol(st, market, symbol) == Ok(None)
  {
  }

  /** The scan loop: the candidates of `symbols` in order, Raised at the first symbol that raises. */
  function ScanSpec(st: Settings, market: Market, symbols: seq<string>): Try<seq<Candidate>> {
    if symbols == [] then Ok([])
    else
      match ScanSpec(st, market, symbols[..|symbols| - 1])
      case Raised => Raised
      case Ok(cs) =>
        match ScanSymbol(st, market, symbols[|symbols| - 1])
        case Raised => Raised
        case Ok(None) => Ok(cs)
        case Ok(Some(c)) => Ok(cs + [c])
  }

  /** Every candidate of the scan belongs to a scanned symbol and has all three timeframes agreeing. */
  lemma {:induction false} ScanCandidatesAgree(st: Settings, market: Market, symbols: seq<string>)
    ensures var r := ScanSpec(st, market, symbols);
            r.Ok? ==> (|r.value| <= |symbols| &&
              forall i :: 0 <= i < |r.value| ==>
                r.value[i].symbol in symbols && Agrees(r.value[i].bias, r.value[i].confirm, r.value[i].entry, r.value[i].side))
  {
    if symbols != [] {
      var n := |symbols| - 1;
      ScanCandidatesAgree(st, market, symbols[..n]);
      var r := ScanSpec(st, market, symbols);
      if r.Ok? {
        var cs := ScanSpec(st, market, symbols[..n]).value;
        var last := ScanSymbol(st, market, symbols[n]);
        assert last.Ok? && (r.value == cs || (last.value.Some? && r.value == cs + [last.value.value]));
        ExtendScanned(cs, r.value, symbols);
      }
    }
  }

  /** Appending the last symbol's agreeing candidate (or nothing) keeps the scan's candidates sound. */
  lemma ExtendScanned(cs: seq<Candidate>, r: seq<Candidate>, symbols: seq<string>)
    requires symbols != []
    requires |cs| <= |symbols| - 1
    requires forall i :: 0 <= i < |cs| ==>
               cs[i].symbol in symbols[..|symbols| - 1] && Agrees(cs[i].bias, cs[i].confirm, cs[i].entry, cs[i].side)
    requires r == cs ||
             (|r| == |cs| + 1 && r[..|cs|] == cs && r[|cs|].symbol == symbols[|symbols| - 1] &&
              Agrees(r[|cs|].bias, r[|cs|].confirm, r[|cs|].entry, r[|cs|].side))
    ensures |r| <= |symbols|
    ensures forall i :: 0 <= i < |r| ==>
              r[i].symbol in symbols && Agrees(r[i].bias, r[i].confirm, r[i].entry, r[i].side)
  {
    var n := |symbols| - 1;
    forall i | 0 <= i < |r|
      ensures r[i].symbol in symbols
    {
      if i < |cs| {
        assert r[i] == cs[i];
        var k :| 0 <= k < n && symbols[..n][k] == cs[i].symbol;
        assert symbols[k] == cs[i].symbol;
      }
    }
  }

  // ---------------------------------------------------------------------
  // Sizing
  // ---------------------------------------------------------------------

  /** A final order: the `final_signals` entry (its constant `profit` of 0 left out). */
  datatype EntryOrder = EntryOrder(
    symbol: string,
    side: Side,
    lot: real,
    openPrice: Value,
    sl: real,
    tp: real,
    bias: Label,
    confirm: Label,
    entry: Label,
    confidence: real)

  function OrderSymbol(o: EntryOrder): string { o.symbol }

  /**
   * What every order promises: a positive lot within the symbol's volume
   * limits, a numeric open price, and SL and TP at least the broker's
   * minimum stop distance away from it.
   */
  predicate Sound(market: Market, o: EntryOrder) {
    var info := market.info(o.symbol);
    o.lot > 0.0 && info.Some? && o.lot >= info.value.volumeMin &&
    (info.value.volumeMin <= info.value.volumeMax ==> o.lot <= info.value.volumeMax) &&
    Num(o.openPrice).Some? &&
    Abs(Num(o.openPrice).value - o.sl) >= MinStopDistance(info, o.symbol) &&
    Abs(Num(o.openPrice).value - o.tp) >= MinStopDistance(info, o.symbol)
  }

  /**
   * One candidate of the sizing loop: dropped when its lot is not
   * positive; otherwise its SL/TP prices in pips, pushed out to the
   * minimum stop distance on the candidate's side. Raised when the price
   * is not a number (`float` or the subtraction raises).
   */
  function SizeOne(market: Market, balance: real, risk: real, c: Candidate): (r: Try<Option<EntryOrder>>)
    ensures r == Ok(None) <==> LotFor(balance, c.slPips, market.info(c.symbol), risk) <= 0.0
    ensures r.Raised? <==> LotFor(balance, c.slPips, market.info(c.symbol), risk) > 0.0 && Num(c.price).None?
    ensures r.Ok? && r.value.Some? ==>
              var o := r.value.value;
              Sound(market, o) && o.symbol == c.symbol && o.side == c.side && o.openPrice == c.price &&
              o.lot == LotFor(balance, c.slPips, market.info(c.symbol), risk) &&
              o.bias == c.bias && o.confirm == c.confirm && o.entry == c.entry && o.confidence == c.confidence
  {
    var info := market.info(c.symbol);
    var lot := LotFor(balance, c.slPips, info, risk);
    if lot <= 0.0 then Ok(None)
    else
      match Num(c.price)
      case None => Raised
      case Some(p) =>
        PositiveLotWithinLimits(balance, c.slPips, info, risk);
        var stops := CalculateSlTp(SideText(c.side), p, c.slPips, c.tpPips, "pips", info, c.symbol).value;
        var minStop := MinStopDistance(info, c.symbol);
        var sl := ClampStop(p, stops.0, minStop, c.side == Buy);
        var tp := ClampStop(p, stops.1, minStop, c.side == Sell);
        Ok(Some(EntryOrder(c.symbol, c.side, lot, c.price, sl, tp, c.bias, c.confirm, c.entry, c.confidence)))
  }

  /** The sizing loop over the deduplicated candidates. */
  function SizeSpec(market: Market, balance: real, risk: real, cands: seq<Candidate>): Try<seq<EntryOrder>> {
    if cands == [] then Ok([])
    else
      match SizeSpec(market, balance, risk, cands[..|cands| - 1])
      case Raised => Raised
      case Ok(os) =>
        match SizeOne(market, balance, risk, cands[|cands| - 1])
        case Raised => Raised
        case Ok(None) => Ok(os)
        case Ok(Some(o)) => Ok(os + [o])
  }

  /** The symbols of a candidate list. */
  function CandidateSymbols(cands: seq<Candidate>): (syms: seq<string>)
    ensures |syms| == |cands| && forall i :: 0 <= i < |cands| ==> syms[i] == cands[i].symbol
  {
    seq(|cands|, i requires 0 <= i < |cands| => cands[i].symbol)
  }

  /**
   * Every sized order is sound, comes from a candidate of the same symbol
   * with its timeframe agreement, and distinct candidate symbols give
   * distinct order symbols.
   */
  lemma {:induction false} SizedOrdersSound(market: Market, balance: real, risk: real, cands: seq<Candidate>)
    requires forall i :: 0 <= i < |cands| ==> Agrees(cands[i].bias, cands[i].confirm, cands[i].entry, cands[i].side)
    ensures var r := SizeSpec(market, balance, risk, cands);
            r.Ok? ==>
              |r.value| <= |cands| &&
              (KeysUnique(cands, CandidateSymbol) ==> KeysUnique(r.value, OrderSymbol)) &&
              forall j :: 0 <= j < |r.value| ==>
                Sound(market, r.value[j]) && r.value[j].symbol in CandidateSymbols(cands) &&
                Agrees(r.value[j].bias, r.value[j].confirm, r.value[j].entry, r.value[j].side)
  {
    if cands != [] {
      var n := |cands| - 1;
      var init := cands[..n];
      SizedOrdersSound(market, balance, risk, init);
      var r := SizeSpec(market, balance, risk, cands);
      if r.Ok? {
        var os := SizeSpec(market, balance, risk, init).value;
        var o := SizeOne(market, balance, risk, cands[n]);
        assert r.value == if o.value.Some? then os + [o.value.value] else os;
        forall j | 0 <= j < |os|
          ensures os[j].symbol in CandidateSymbols(cands)
        {
          var k :| 0 <= k < n && CandidateSymbols(init)[k] == os[j].symbol;
          assert CandidateSymbols(cands)[k] == os[j].symbol;
        }
        assert CandidateSymbols(cands)[n] == cands[n].symbol;
        if KeysUnique(cands, CandidateSymbol) {
          SizedOrdersUnique(market, balance, risk, cands);
        }
      }
    }
  }

  /** Sizing candidates with distinct symbols gives orders with distinct symbols. */
  lemma SizedOrdersUnique(market: Market, balance: real, risk: real, cands: seq<Candidate>)
    requires cands != [] && KeysUnique(cands, CandidateSymbol)
    requires forall i :: 0 <= i < |cands| ==> Agrees(cands[i].bias, cands[i].confirm, cands[i].entry, cands[i].side)
    requires var init := SizeSpec(market, balance, risk, cands[..|cands| - 1]);
             init.Ok? ==> KeysUnique(init.value, OrderSymbol) &&
                          forall j :: 0 <= j < |init.value| ==> init.value[j].symbol in CandidateSymbols(cands[..|cands| - 1])
    ensures var r := SizeSpec(market, balance, risk, cands);
            r.Ok? ==> KeysUnique(r.value, OrderSymbol)
  {
    var n := |cands| - 1;
    var init := cands[..n];
    var r := SizeSpec(market, balance, risk, cands);
    if r.Ok? {
      var os := SizeSpec(market, balance, risk, init).value;
      var o := SizeOne(market, balance, risk, cands[n]);
      assert r.value == if o.value.Some? then os + [o.value.value] else os;
      forall j | 0 <= j < |os|
        ensures os[j].symbol != cands[n].symbol
      {
        var k :| 0 <= k < n && CandidateSymbols(init)[k] == os[j].symbol;
        assert cands[k].symbol == os[j].symbol;
      }
    }
  }

  /**
   * `generate_signals`: nothing once the daily target profit is reached;
   * otherwise the candidates of the scanned symbols, deduplicated by
   * symbol, each sized with an even share of LOT_RISK_PERCENT.
   */
  function GenerateSpec(st: Settings, market: Market, balance: real, dailyProfit: real): (r: Try<seq<EntryOrder>>)
    ensures dailyProfit >= st.dailyTargetProfit ==> r == Ok([])
  {
    if dailyProfit >= st.dailyTargetProfit then Ok([])
    else
      match ScanSpec(st, market, Scanned(st))
      case Raised => Raised
      case Ok(cands) =>
        var unique := DedupBy(cands, CandidateSymbol);
        if |unique| == 0 then Ok([])
        else SizeSpec(market, balance, RiskShare(st.lotRiskPercent, |unique|), unique)
  }

  /**
   * Every order of a scan is sound, is for a scanned symbol whose three
   * timeframes agree with its side, and no symbol is ordered twice.
   */
  lemma GeneratedOrdersSound(st: Settings, market: Market, balance: real, dailyProfit: real)
    ensures var r := GenerateSpec(st, market, balance, dailyProfit);
            r.Ok? ==>
              |r.value| <= |Scanned(st)| && KeysUnique(r.value, OrderSymbol) &&
              forall j :: 0 <= j < |r.value| ==>
                Sound(market, r.value[j]) && r.value[j].symbol in Scanned(st) &&
                Agrees(r.value[j].bias, r.value[j].confirm, r.value[j].entry, r.value[j].side)
  {
    if dailyProfit < st.dailyTargetProfit {
      var syms := Scanned(st);
      ScanCandidatesAgree(st, market, syms);
      var sc := ScanSpec(st, market, syms);
      if sc.Ok? {
        var cands := sc.value;
        UniqueCandidatesScanned(cands, syms);
        var unique := DedupBy(cands, CandidateSymbol);
        if |unique| > 0 {
          SizedOrdersScanned(market, balance, RiskShare(st.lotRiskPercent, |unique|), unique, syms);
        }
      }
    }
  }

  /** Every candidate a successful scan meets is kept, in the scan's result. */
  lemma ScanComplete(st: Settings, market: Market, symbols: seq<string>, i: int)
    requires 0 <= i < |symbols|
    ensures var r := ScanSpec(st, market, symbols);
            var c := ScanSymbol(st, market, symbols[i]);
            r.Ok? ==> c.Ok? && (c.value.Some? ==> c.value.value in r.value)
  {
    var f := s => ScanSymbol(st, market, s);
    ScanSpecIsBatch(st, market, symbols);
    TryFilterMapComplete(symbols, f, i);
  }

  /** The scan loop is the raising batch of `ScanSymbol` over the symbols. */
  lemma {:induction false} ScanSpecIsBatch(st: Settings, market: Market, symbols: seq<string>)
    ensures ScanSpec(st, market, symbols) == TryFilterMap(symbols, s => ScanSymbol(st, market, s))
    decreases |symbols|
  {
    if symbols != [] {
      ScanSpecIsBatch(st, market, symbols[..|symbols| - 1]);
    }
  }

  /** A successful sizing loop sized every candidate without raising and kept each order it made. */
  lemma SizedOrdersComplete(market: Market, balance: real, risk: real, cands: seq<Candidate>, i: int)
    requires 0 <= i < |cands|
    ensures var r := SizeSpec(market, balance, risk, cands);
            var o := SizeOne(market, balance, risk, cands[i]);
            r.Ok? ==> o.Ok? && (o.value.Some? ==> o.value.value in r.value)
  {
    var f := c => SizeOne(market, balance, risk, c);
    SizeSpecIsBatch(market, balance, risk, cands);
    TryFilterMapComplete(cands, f, i);
  }

  /** The sizing loop is the raising batch of `SizeOne` over the candidates. */
  lemma {:induction false} SizeSpecIsBatch(market: Market, balance: real, risk: real, cands: seq<Candidate>)
    ensures SizeSpec(market, balance, risk, cands) == TryFilterMap(cands, c => SizeOne(market, balance, risk, c))
    decreases |cands|
  {
    if cands != [] {
      SizeSpecIsBatch(market, balance, risk, cands[..|cands| - 1]);
    }
  }

  /**
   * No candidate is lost: when the scan succeeds, each candidate it finds
   * that is the last for its symbol, and whose lot at the even risk share
   * is positive, is ordered; a scan that found candidates never answers
   * with no orders unless every lot was zero.
   */
  lemma GeneratedOrdersComplete(st: Settings, market: Market, balance: real, dailyProfit: real,
                                cands: seq<Candidate>, i: int)
    requires dailyProfit < st.dailyTargetProfit
    requires ScanSpec(st, market, Scanned(st)) == Ok(cands)
    requires 0 <= i < |cands| && LastOfKey(cands, i, CandidateSymbol)
    ensures var share := RiskShare(st.lotRiskPercent, |DedupBy(cands, CandidateSymbol)|);
            var o := SizeOne(market, balance, share, cands[i]);
            var r := GenerateSpec(st, market, balance, dailyProfit);
            r.Ok? ==> o.Ok? && (o.value.Some? ==> o.value.value in r.value)
  {
    var unique := DedupBy(cands, CandidateSymbol);
    DedupLastWins(cands, CandidateSymbol);
    var k :| 0 <= k < |unique| && unique[k] == cands[i];
    SizedOrdersComplete(market, balance, RiskShare(st.lotRiskPercent, |unique|), unique, k);
  }

  /** Deduplicating scanned candidates keeps one per symbol, each for a scanned symbol and agreeing. */
  lemma UniqueCandidatesScanned(cands: seq<Candidate>, syms: seq<string>)
    requires forall i :: 0 <= i < |cands| ==>
               cands[i].symbol in syms && Agrees(cands[i].bias, cands[i].confirm, cands[i].entry, cands[i].side)
    ensures var unique := DedupBy(cands, CandidateSymbol);
            |unique| <= |cands| && KeysUnique(unique, CandidateSymbol) &&
            forall i :: 0 <= i < |unique| ==>
              unique[i].symbol in syms && Agrees(unique[i].bias, unique[i].confirm, unique[i].entry, unique[i].side)
  {
    var unique := DedupBy(cands, CandidateSymbol);
    DedupLastWins(cands, CandidateSymbol);
    forall i | 0 <= i < |unique|
      ensures unique[i].symbol in syms
      ensures Agrees(unique[i].bias, unique[i].confirm, unique[i].entry, unique[i].side)
    {
      assert unique[i] in cands;
    }
  }

  /** Sizing candidates of distinct scanned symbols gives sound orders of distinct scanned symbols. */
  lemma SizedOrdersScanned(market: Market, balance: real, risk: real, cands: seq<Candidate>, syms: seq<string>)
    requires KeysUnique(cands, CandidateSymbol)
    requires forall i :: 0 <= i < |cands| ==>
               cands[i].symbol in syms && Agrees(cands[i].bias, cands[i].confirm, cands[i].entry, cands[i].side)
    ensures var r := SizeSpec(market, balance, risk, cands);
            r.Ok? ==>
              |r.value| <= |cands| && KeysUnique(r.value, OrderSymbol) &&
              forall j :: 0 <= j < |r.value| ==>
                Sound(market, r.value[j]) && r.value[j].symbol in syms &&
                Agrees(r.value[j].bias, r.value[j].confirm, r.value[j].entry, r.value[j].side)
  {
    SizedOrdersSound(market, balance, risk, cands);
    var r := SizeSpec(market, balance, risk, cands);
    if r.Ok? {
      forall j | 0 <= j < |r.value|
        ensures r.value[j].symbol in syms
      {
        var k :| 0 <= k < |cands| && CandidateSymbols(cands)[k] == r.value[j].symbol;
        assert cands[k].symbol in syms;
      }
    }
  }

  /** `BreakoutStrategy` of the entry package: the symbols of its last scan. */
  class EntryScanner {
    const settings: Settings
    var lastScannedSymbols: seq<string>

    constructor(settings: Settings)
      ensures this.settings == settings && lastScannedSymbols == []
    {
      this.settings := settings;
      lastScannedSymbols := [];
    }

    /** `generate_signals`; the scanned symbols are recorded unless the daily target stops the scan. */
    method GenerateSignals(market: Market, balance: real, dailyProfit: real) returns (r: Try<seq<EntryOrder>>)
      modifies this
      ensures r == GenerateSpec(settings, market, balance, dailyProfit)
      ensures lastScannedSymbols == if dailyProfit >= settings.dailyTargetProfit then old(lastScannedSymbols) else Scanned(settings)
    {
      if dailyProfit >= settings.dailyTargetProfit {
        return Ok([]);
      }
      var symbols := Scanned(settings);
      lastScannedSymbols := symbols;
      var scanned := ScanSymbols(settings, market, symbols);
      if scanned.Raised? {
        return Raised;
      }
      var unique := DedupBy(scanned.value, CandidateSymbol);
      if |unique| == 0 {
        return Ok([]);
      }
      r := SizeCandidates(market, balance, RiskShare(settings.lotRiskPercent, |unique|), unique);
    }
  }

  /** The scanner's loop over the symbols, collecting a candidate per symbol that signals. */
  method ScanSymbols(st: Settings, market: Market, symbols: seq<string>) returns (r: Try<seq<Candidate>>)
    ensures r == ScanSpec(st, market, symbols)
  {
    var signals: seq<Candidate> := [];
    var i := 0;
    while i < |symbols|
      invariant 0 <= i <= |symbols|
      invariant ScanSpec(st, market, symbols[..i]) == Ok(signals)
    {
      var fetched := FetchTimeframes(market, symbols[i], Timeframes(st.multi), st.minCandles);
      var step := ScanFetched(st, market, symbols[i], fetched);
      assert step == ScanSymbol(st, market, symbols[i]);
      ScanSpecStep(st, market, symbols, i);
      if step.Raised? {
        RaisedStaysRaised(st, market, symbols, i + 1);
        return Raised;
      }
      if step.value.Some? {
        signals := signals + [step.value.value];
      }
      i := i + 1;
    }
    assert symbols[..i] == symbols;
    return Ok(signals);
  }

  /** The sizing loop over the deduplicated candidates. */
  method SizeCandidates(market: Market, balance: real, risk: real, unique: seq<Candidate>) returns (r: Try<seq<EntryOrder>>)
    ensures r == SizeSpec(market, balance, risk, unique)
  {
    var orders: seq<EntryOrder> := [];
    var j := 0;
    while j < |unique|
      invariant 0 <= j <= |unique|
      invariant SizeSpec(market, balance, risk, unique[..j]) == Ok(orders)
    {
      assert unique[..j + 1][..j] == unique[..j];
      var sized := SizeOne(market, balance, risk, unique[j]);
      if sized.Raised? {
        SizingRaisedStaysRaised(market, balance, risk, unique, j + 1);
        return Raised;
      }
      if sized.value.Some? {
        orders := orders + [sized.value.value];
      }
      j := j + 1;
    }
    assert unique[..j] == unique;
    return Ok(orders);
  }

  /** One more symbol extends the scan by that symbol's outcome. */
  lemma ScanSpecStep(st: Settings, market: Market, symbols: seq<string>, i: int)
    requires 0 <= i < |symbols|
    ensures ScanSpec(st, market, symbols[..i + 1]) ==
              match ScanSpec(st, market, symbols[..i])
              case Raised => Raised
              case Ok(cs) =>
                match ScanSymbol(st, market, symbols[i])
                case Raised => Raised
                case Ok(None) => Ok(cs)
                case Ok(Some(c)) => Ok(cs + [c])
  {
    assert symbols[..i + 1][..i] == symbols[..i];
  }

  /** A symbol that raises ends the whole scan. */
  lemma {:induction false} RaisedStaysRaised(st: Settings, market: Market, symbols: seq<string>, i: nat)
    requires 0 < i <= |symbols|
    requires ScanSpec(st, market, symbols[..i]).Raised?
    ensures ScanSpec(st, market, symbols).Raised?
    decreases |symbols| - i
  {
    if i < |symbols| {
      assert symbols[..i + 1][..i] == symbols[..i];
      RaisedStaysRaised(st, market, symbols, i + 1);
    } else {
      assert symbols[..i] == symbols;
    }
  }

  /** A candidate that raises ends the whole sizing loop. */
  lemma {:induction false} SizingRaisedStaysRaised(market: Market, balance: real, risk: real, cands: seq<Candidate>, i: nat)
    requires 0 < i <= |cands|
    requires SizeSpec(market, balance, risk, cands[..i]).Raised?
    ensures SizeSpec(market, balance, risk, cands).Raised?
    decreases |cands| - i
  {
    if i < |cands| {
      assert cands[..i + 1][..i] == cands[..i];
      SizingRaisedStaysRaised(market, balance, risk, cands, i + 1);
    } else {
      assert cands[..i] == cands;
    }
  }

  // ---------------------------------------------------------------------
  // The single-signal entry helper
  // ---------------------------------------------------------------------

  /** The dict handed to the trade executor: the signal's fields plus lot and SL/TP prices. */
  datatype TradeRequest = TradeRequest(
    symbol: string,
    direction: Value,
    price: Value,
    lot: real,
    slPips: Value,
    tpPips: Value,
    sl: real,
    tp: real)

  predicate AllTruthy(signal: map<string, Value>) {
    Truthy(TradeExecution.Get(signal, "symbol")) && Truthy(TradeExecution.Get(signal, "direction")) &&
    Truthy(TradeExecution.Get(signal, "price")) && Truthy(TradeExecution.Get(signal, "sl_pips")) &&
    Truthy(TradeExecution.Get(signal, "tp_pips"))
  }

  /**
   * The `trade_signal` dict `EnterTrade.enter_trade` builds: None when a required field is falsy or the
   * lot (at the full LOT_RISK_PERCENT) is not positive; otherwise the
   * request with SL/TP prices, each pushed out to the minimum stop
   * distance on the side the direction names (anything but "SELL" counts
   * as a buy there, while the SL/TP conversion treats anything but "BUY"
   * as a sell). Raised where Python raises: a symbol that is not a
   * string, a stop distance that does not multiply, a take profit
   * `float` refuses, or a price that does not subtract.
   */
  function TradeSignal(signal: map<string, Value>, balance: real, info: string -> Option<SymbolInfo>): (r: Try<Option<TradeRequest>>)
    ensures !AllTruthy(signal) ==> r == Ok(None)
    ensures r.Ok? && r.value.Some? ==>
              var q := r.value.value;
              AllTruthy(signal) &&
              TradeExecution.Get(signal, "symbol") == VStr(q.symbol) &&
              q.direction == TradeExecution.Get(signal, "direction") && q.price == TradeExecution.Get(signal, "price") &&
              q.slPips == TradeExecution.Get(signal, "sl_pips") && q.tpPips == TradeExecution.Get(signal, "tp_pips") &&
              q.lot > 0.0 && Num(q.price).Some? &&
              Abs(Num(q.price).value - q.sl) >= MinStopDistance(info(q.symbol), q.symbol) &&
              Abs(Num(q.price).value - q.tp) >= MinStopDistance(info(q.symbol), q.symbol)
    ensures (AllTruthy(signal) && TradeExecution.Get(signal, "symbol").VStr? &&
             Num(TradeExecution.Get(signal, "price")).Some? && Num(TradeExecution.Get(signal, "sl_pips")).Some? &&
             Num(TradeExecution.Get(signal, "tp_pips")).Some?) ==> r.Ok?
  {
    var symbol := TradeExecution.Get(signal, "symbol");
    var direction := TradeExecution.Get(signal, "direction");
    var price := TradeExecution.Get(signal, "price");
    var slPips := TradeExecution.Get(signal, "sl_pips");
    var tpPips := TradeExecution.Get(signal, "tp_pips");
    if !AllTruthy(signal) then Ok(None)
    else if !symbol.VStr? || Num(slPips).None? then Raised
    else
      var inf := info(symbol.s);
      var lot := LotFor(balance, Num(slPips).value, inf, LotRiskPercent);
      if lot <= 0.0 then Ok(None)
      else if FloatOf(tpPips).None? || Num(price).None? then Raised
      else
        NumberConverts(price);
        NumberConverts(slPips);
        var p := Num(price).value;
        var dir := if direction == VStr("BUY") then "BUY" else "SELL";
        var stops := CalculateSlTp(dir, p, Num(slPips).value, FloatOf(tpPips).value, "pips", inf, symbol.s).value;
        var minStop := MinStopDistance(inf, symbol.s);
        var sl := ClampStop(p, stops.0, minStop, direction != VStr("SELL"));
        var tp := ClampStop(p, stops.1, minStop, direction == VStr("SELL"));
        Ok(Some(TradeRequest(symbol.s, direction, price, lot, slPips, tpPips, sl, tp)))
  }

  /** The request as the dict handed to `TradeExecutor.process_signal`. */
  function RequestItem(q: TradeRequest): TradeExecution.Item {
    TradeExecution.IDict(map["symbol" := VStr(q.symbol), "direction" := q.direction, "price" := q.price,
                             "lot" := VReal(q.lot), "sl_pips" := q.slPips, "tp_pips" := q.tpPips,
                             "sl" := VReal(q.sl), "tp" := VReal(q.tp)])
  }

  /**
   * `EnterTrade.enter_trade` as a whole: the request goes to the trade
   * executor, which runs `execute_signals` on it; the result is the orders
   * that run places and whether it raised.  The method itself returns what
   * `process_signal` returns, which is always None.
   */
  function EnterTrade(signal: map<string, Value>, balance: real, info: string -> Option<SymbolInfo>,
                      env: TradeExecution.ExecEnv): (r: Try<(seq<TradeExecution.Placement>, bool)>)
    ensures !AllTruthy(signal) ==> r == Ok(([], false))
    ensures r.Raised? <==> TradeSignal(signal, balance, info).Raised?
    ensures TradeSignal(signal, balance, info) == Ok(None) ==> r == Ok(([], false))
    ensures r.Ok? && r.value.0 != [] ==>
              var e := TradeSignal(signal, balance, info);
              e.Ok? && e.value.Some? && |r.value.0| == 1 &&
              r.value.0[0].symbol == VStr(e.value.value.symbol) && r.value.0[0].lot == e.value.value.lot
    ensures var e := TradeSignal(signal, balance, info);
            e.Ok? && e.value.Some? ==> r == Ok(TradeExecution.ExecuteSpec([RequestItem(e.value.value)], env))
  {
    match TradeSignal(signal, balance, info)
    case Raised => Raised
    case Ok(None) => Ok(([], false))
    case Ok(Some(q)) =>
      RequestRun(q, env);
      Ok(TradeExecution.ExecuteSpec([RequestItem(q)], env))
  }

  /** The executor's run over the request alone: at most the one order, for the request's symbol and lot. */
  lemma RequestRun(q: TradeRequest, env: TradeExecution.ExecEnv)
    ensures var r := TradeExecution.ExecuteSpec([RequestItem(q)], env);
            r == TradeExecution.Extend([], TradeExecution.Plan(RequestItem(q), env)) &&
            (r.0 != [] ==> |r.0| == 1 && r.0[0].symbol == VStr(q.symbol) && r.0[0].lot == q.lot)
  {
    assert [RequestItem(q)][..0] == [];
    assert TradeExecution.Get(RequestItem(q).fields, "symbol") == VStr(q.symbol);
    assert TradeExecution.Get(RequestItem(q).fields, "lot") == VReal(q.lot);
  }

  /** With truthy price and pip distances, the executor orders the request at the calculator's SL and TP. */
  lemma RequestPlan(q: TradeRequest, env: TradeExecution.ExecEnv, dir: Side, sl: Value, tp: Value)
    requires q.symbol != "" && Truthy(q.price) && Truthy(q.slPips) && Truthy(q.tpPips)
    requires TradeExecution.ExtractDirection(RequestItem(q).fields) == Some(dir)
    requires env.slTp.Some? && env.slTp.value(dir, q.price, q.slPips, q.tpPips, VStr(q.symbol)) == Ok((sl, tp))
    ensures TradeExecution.Plan(RequestItem(q), env) == TradeExecution.Place(TradeExecution.Placement(VStr(q.symbol), dir, q.lot, sl, tp))
  {
    RequestGets(q);
    PlanOfFields(RequestItem(q).fields, q.symbol, q.price, q.slPips, q.tpPips, q.lot, env, dir, sl, tp);
  }

  lemma RequestGets(q: TradeRequest)
    ensures var f := RequestItem(q).fields;
            TradeExecution.Get(f, "symbol") == VStr(q.symbol) && TradeExecution.Get(f, "open_price") == VNone &&
            TradeExecution.Get(f, "price") == q.price && TradeExecution.Get(f, "sl_pips") == q.slPips &&
            TradeExecution.Get(f, "tp_pips") == q.tpPips && TradeExecution.Get(f, "lot") == VReal(q.lot)
  {
  }

  /** The executor's plan for a dict with a lot, a price and truthy pip distances, and no `open_price`. */
  lemma PlanOfFields(f: map<string, Value>, symbol: string, price: Value, slPips: Value, tpPips: Value, lot: real,
                     env: TradeExecution.ExecEnv, dir: Side, sl: Value, tp: Value)
    requires TradeExecution.Get(f, "symbol") == VStr(symbol) && symbol != ""
    requires TradeExecution.Get(f, "open_price") == VNone && TradeExecution.Get(f, "price") == price && Truthy(price)
    requires TradeExecution.Get(f, "sl_pips") == slPips && Truthy(slPips)
    requires TradeExecution.Get(f, "tp_pips") == tpPips && Truthy(tpPips)
    requires TradeExecution.Get(f, "lot") == VReal(lot)
    requires TradeExecution.ExtractDirection(f) == Some(dir)
    requires env.slTp.Some? && env.slTp.value(dir, price, slPips, tpPips, VStr(symbol)) == Ok((sl, tp))
    ensures TradeExecution.Plan(TradeExecution.IDict(f), env) == TradeExecution.Place(TradeExecution.Placement(VStr(symbol), dir, lot, sl, tp))
  {
    assert TradeExecution.ExtractLot(f, env.risk(VStr(symbol), f), env.configLots) == Some(lot);
  }

  /**
   * The stops the helper pushes out to the minimum distance never reach the
   * broker: for any request with truthy fields (as every request the
   * helper builds has, `RequestTruthy`), the executor recomputes SL and TP
   * from the raw pip distances and the order carries those, whatever
   * `q.sl` and `q.tp` are.
   */
  lemma ClampedStopsNotForwarded(q: TradeRequest, env: TradeExecution.ExecEnv, dir: Side, sl: Value, tp: Value)
    requires q.symbol != "" && Truthy(q.price) && Truthy(q.slPips) && Truthy(q.tpPips)
    requires TradeExecution.ExtractDirection(RequestItem(q).fields) == Some(dir)
    requires env.slTp.Some? && env.slTp.value(dir, q.price, q.slPips, q.tpPips, VStr(q.symbol)) == Ok((sl, tp))
    ensures TradeExecution.ExecuteSpec([RequestItem(q)], env) ==
            ([TradeExecution.Placement(VStr(q.symbol), dir, q.lot, sl, tp)], false)
  {
    var p := TradeExecution.Placement(VStr(q.symbol), dir, q.lot, sl, tp);
    RequestPlan(q, env, dir, sl, tp);
    RequestRun(q, env);
    assert [] + [p] == [p];
  }

  /** A request carries the signal's truthy fields. */
  lemma RequestTruthy(signal: map<string, Value>, balance: real, info: string -> Option<SymbolInfo>, q: TradeRequest)
    requires TradeSignal(signal, balance, info) == Ok(Some(q))
    ensures q.symbol != "" && Truthy(q.price) && Truthy(q.slPips) && Truthy(q.tpPips)
  {
  }

  /** A value that takes part in arithmetic converts to the same number with `float`. */
  lemma NumberConverts(v: Value)
    requires Num(v).Some?
    ensures FloatOf(v) == Num(v)
  {
  }

  /** The signal dict the scanner's candidate would hand to the entry helper. */
  function CandidateDict(c: Candidate): map<string, Value> {
    map["symbol" := VStr(c.symbol), "direction" := VStr(SideText(c.side)), "price" := c.price,
        "sl_pips" := VReal(c.slPips), "tp_pips" := VReal(c.tpPips)]
  }

  /**
   * The entry helper and the scanner size alike: for a candidate whose
   * fields are all truthy, entering it alone gives the scanner's lot and
   * SL/TP prices at the full risk percentage, and both drop or raise on
   * the same candidates.
   */
  lemma EntryHelperAgreesWithScanner(market: Market, balance: real, c: Candidate)
    requires c.symbol != "" && Truthy(c.price) && c.slPips != 0.0 && c.tpPips != 0.0
    ensures var e := TradeSignal(CandidateDict(c), balance, market.info);
            var s := SizeOne(market, balance, LotRiskPercent, c);
            (e.Raised? <==> s.Raised?) && (e == Ok(None) <==> s == Ok(None)) &&
            (e.Ok? && e.value.Some? ==>
               s.Ok? && s.value.Some? &&
               e.value.value.lot == s.value.value.lot && e.value.value.sl == s.value.value.sl &&
               e.value.value.tp == s.value.value.tp)
  {
    var d := CandidateDict(c);
    assert TradeExecution.Get(d, "symbol") == VStr(c.symbol);
    assert TradeExecution.Get(d, "direction") == VStr(SideText(c.side));
    assert TradeExecution.Get(d, "price") == c.price;
    assert TradeExecution.Get(d, "sl_pips") == VReal(c.slPips);
    assert TradeExecution.Get(d, "tp_pips") == VReal(c.tpPips);
  }
}
