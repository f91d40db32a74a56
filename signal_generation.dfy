// The signal strategies the orchestrator drives: the strong-signal rule
// (SMA and MACD agreement with a confidence threshold, closed-candle
// discipline and entry filters), the multi-timeframe gate over it, and the
// n-tick confirmation wrapper that holds a signal back until n ticks agree.

module SignalGeneration {
  import opened Base
  import Orchestrator

  // ---------------------------------------------------------------------
  // Configuration and candles
  // ---------------------------------------------------------------------

  datatype StrongConfig = StrongConfig(
    minCandles: int,
    confidenceThreshold: real,
    useClosedCandlesOnly: bool,
    dropLastCandleAlways: bool,
    atrPeriod: int,
    atrMoveMult: real,
    maxSpreadPoints: real,
    defaultSymbol: string)

  /** The settings' values: 202 candles, threshold 0.5, closed candles only, ATR 14 with 0.15, no spread cap, `SYMBOLS[0]`. */
  const DefaultStrongConfig: StrongConfig := StrongConfig(202, 0.5, true, false, 14, 0.15, 0.0, "EURUSD")

  function Last<T>(s: seq<T>): T
    requires |s| > 0
  {
    s[|s| - 1]
  }

  /** `candle.get(key)` on a dict candle (None when absent). */
  function Field(c: Record, key: string): Value {
    if c.Dict? && key in c.entries then c.entries[key] else VNone
  }

  /** `_resolve_symbol`: the last candle's truthy `symbol`, else the first configured symbol. */
  function StrategySymbol(cfg: StrongConfig, candles: seq<Record>): (v: Value)
    ensures candles != [] && Truthy(Field(Last(candles), "symbol")) ==> v == Field(Last(candles), "symbol")
    ensures !(candles != [] && Truthy(Field(Last(candles), "symbol"))) ==> v == VStr(cfg.defaultSymbol)
  {
    if candles != [] && Truthy(Field(Last(candles), "symbol")) then Field(Last(candles), "symbol")
    else VStr(cfg.defaultSymbol)
  }

  /** The last candle is a dict flagged as still forming. */
  predicate LastIsOpen(candles: seq<Record>) {
    candles != [] && Last(candles).Dict? && !Orchestrator.IsCandleClosed(Last(candles))
  }

  /**
   * `_candles_for_indicators`: drops the last candle, always when so
   * configured, otherwise (with closed candles only) when it is flagged open.
   */
  function CandlesForIndicators(cfg: StrongConfig, candles: seq<Record>): (r: seq<Record>)
    ensures |r| <= |candles| && r == candles[..|r|]
    ensures |r| < |candles| <==>
              candles != [] && (cfg.dropLastCandleAlways || (cfg.useClosedCandlesOnly && LastIsOpen(candles)))
    ensures |r| < |candles| ==> |r| == |candles| - 1
  {
    if candles == [] then candles
    else if cfg.dropLastCandleAlways then candles[..|candles| - 1]
    else if cfg.useClosedCandlesOnly && LastIsOpen(candles) then candles[..|candles| - 1]
    else candles
  }

  /** `_min_candles_after_filtering`. */
  function MinCandlesAfterFiltering(cfg: StrongConfig): nat {
    if cfg.minCandles <= 0 then 0
    else if cfg.dropLastCandleAlways then (if cfg.minCandles - 1 > 1 then cfg.minCandles - 1 else 1)
    else cfg.minCandles
  }

  /**
   * With the last candle always dropped, a collector that supplies at least
   * the configured minimum (and at least two candles) is never left waiting
   * for a closed candle; without dropping, one that supplies the minimum
   * waits exactly when its last candle is still open.
   */
  lemma FilteringLeavesEnough(cfg: StrongConfig, candles: seq<Record>)
    requires |candles| >= cfg.minCandles && |candles| >= 2
    ensures cfg.dropLastCandleAlways ==>
              |CandlesForIndicators(cfg, candles)| >= MinCandlesAfterFiltering(cfg)
    ensures !cfg.dropLastCandleAlways && cfg.minCandles == |candles| ==>
              (|CandlesForIndicators(cfg, candles)| < MinCandlesAfterFiltering(cfg) <==>
               cfg.useClosedCandlesOnly && LastIsOpen(candles))
  {
  }

  // ---------------------------------------------------------------------
  // Average true range
  // ---------------------------------------------------------------------

  /** A candle's high, low and close as floats. */
  datatype Bar = Bar(high: real, low: real, close: real)

  /** `float(c.get("high"))`, `float(c.get("low"))`, `float(c.get("close"))`; None where one of them raises. */
  function BarOf(c: Record): (r: Option<Bar>)
    ensures r.Some? <==> c.Dict? && FloatOf(Field(c, "high")).Some? && FloatOf(Field(c, "low")).Some? &&
                         FloatOf(Field(c, "close")).Some?
  {
    var h := FloatOf(Field(c, "high"));
    var l := FloatOf(Field(c, "low"));
    var cl := FloatOf(Field(c, "close"));
    if c.Dict? && h.Some? && l.Some? && cl.Some? then Some(Bar(h.value, l.value, cl.value)) else None
  }

  predicate AllBars(cs: seq<Record>) {
    forall i :: 0 <= i < |cs| ==> BarOf(cs[i]).Some?
  }

  /** The converted candles, in order. */
  function Bars(cs: seq<Record>): (bs: seq<Bar>)
    requires AllBars(cs)
    ensures |bs| == |cs| && forall i :: 0 <= i < |cs| ==> Some(bs[i]) == BarOf(cs[i])
  {
    seq(|cs|, i requires 0 <= i < |cs| && AllBars(cs) => BarOf(cs[i]).value)
  }

  function Abs(x: real): real {
    if x < 0.0 then -x else x
  }

  /** `max(h - l, |h - prev_close|, |l - prev_close|)`. */
  function TrueRange(h: real, l: real, prevClose: real): (tr: real)
    ensures tr >= 0.0
    ensures tr >= h - l && tr >= Abs(h - prevClose) && tr >= Abs(l - prevClose)
    ensures tr == h - l || tr == Abs(h - prevClose) || tr == Abs(l - prevClose)
  {
    var a := h - l;
    var b := Abs(h - prevClose);
    var c := Abs(l - prevClose);
    if a >= b && a >= c then a else if b >= c then b else c
  }

  /** The true range of bar `k` against the close of bar `k - 1`. */
  function TrAt(bs: seq<Bar>, k: int): (tr: real)
    requires 1 <= k < |bs|
    ensures tr >= 0.0
  {
    TrueRange(bs[k].high, bs[k].low, bs[k - 1].close)
  }

  /** The sum of the true ranges of bars `lo .. hi - 1`, each against the close before it. */
  function TrSum(bs: seq<Bar>, lo: int, hi: int): real
    requires 1 <= lo <= hi <= |bs|
    decreases hi - lo
  {
    if hi == lo then 0.0
    else TrSum(bs, lo, hi - 1) + TrAt(bs, hi - 1)
  }

  lemma {:induction false} TrSumNonNegative(bs: seq<Bar>, lo: int, hi: int)
    requires 1 <= lo <= hi <= |bs|
    ensures TrSum(bs, lo, hi) >= 0.0
    decreases hi - lo
  {
    if hi > lo {
      TrSumNonNegative(bs, lo, hi - 1);
    }
  }

  /**
   * `_atr`: the mean true range of the last `period` candles. None for an
   * empty input, a non-positive period, any candle whose high, low or close
   * does not convert, or fewer than `period + 1` candles.
   */
  function AtrSpec(cs: seq<Record>, period: int): (r: Option<real>)
    ensures r.Some? ==> r.value >= 0.0
    ensures r.Some? ==> period > 0 && |cs| >= period + 1 && AllBars(cs)
    ensures (period > 0 && |cs| >= period + 1 && AllBars(cs)) ==> r.Some?
  {
    if cs == [] || period <= 0 then None
    else if !AllBars(cs) then None
    else if |cs| < period + 1 then None
    else Some(MeanTrueRange(Bars(cs), period))
  }

  /** The mean true range of the last `period` bars. */
  function MeanTrueRange(bs: seq<Bar>, period: int): (m: real)
    requires 1 <= period < |bs|
    ensures m >= 0.0
  {
    var total := TrSum(bs, |bs| - period, |bs|);
    TrSumNonNegative(bs, |bs| - period, |bs|);
    QuotientNonNegative(total, period as real);
    total / period as real
  }

  lemma QuotientNonNegative(x: real, d: real)
    requires x >= 0.0 && d > 0.0
    ensures x / d >= 0.0
  {
  }

  /** `_atr` as the source computes it: convert every candle, then sum the last `period` true ranges. */
  method Atr(candles: seq<Record>, period: int) returns (r: Option<real>)
    ensures r == AtrSpec(candles, period)
  {
    if candles == [] || period <= 0 {
      AtrSpecNone(candles, period);
      return None;
    }
    var columns := ConvertCandles(candles);
    if columns.None? {
      AtrSpecNone(candles, period);
      return None;
    }
    var (highs, lows, closes) := columns.value;
    assert AllBars(candles) && |closes| == |candles|;
    if |closes| < period + 1 {
      AtrSpecNone(candles, period);
      return None;
    }
    var mean := MeanOfLast(Bars(candles), highs, lows, closes, period);
    AtrSpecUnfold(candles, period);
    return Some(mean);
  }

  /** The tail of `_atr`: the sum of the last `period` true ranges over the columns, divided by `period`. */
  method MeanOfLast(bs: seq<Bar>, highs: seq<real>, lows: seq<real>, closes: seq<real>, period: int)
    returns (mean: real)
    requires Columns(bs, highs, lows, closes) && 1 <= period < |bs|
    ensures mean == MeanTrueRange(bs, period)
  {
    var sum := SumTrueRanges(bs, highs, lows, closes, |bs| - period);
    mean := sum / period as real;
  }

  /** An empty input, a non-positive period, a candle that does not convert or too few candles give no `_atr`. */
  lemma AtrSpecNone(candles: seq<Record>, period: int)
    requires candles == [] || period <= 0 || !AllBars(candles) || |candles| < period + 1
    ensures AtrSpec(candles, period) == None
  {
  }

  /** With a positive period and enough candles that all convert, `_atr` is the mean true range. */
  lemma AtrSpecUnfold(candles: seq<Record>, period: int)
    requires period > 0 && AllBars(candles) && |candles| >= period + 1
    ensures AtrSpec(candles, period) == Some(MeanTrueRange(Bars(candles), period))
  {
  }

  /** The three columns hold the bars' highs, lows and closes. */
  predicate Columns(bs: seq<Bar>, highs: seq<real>, lows: seq<real>, closes: seq<real>) {
    |highs| == |bs| && |lows| == |bs| && |closes| == |bs| &&
    forall j :: 0 <= j < |bs| ==> highs[j] == bs[j].high && lows[j] == bs[j].low && closes[j] == bs[j].close
  }

  /** The conversion loop of `_atr`: every candle's high, low and close as floats, or None at the first failure. */
  method ConvertCandles(candles: seq<Record>) returns (r: Option<(seq<real>, seq<real>, seq<real>)>)
    ensures r.None? <==> !AllBars(candles)
    ensures r.Some? ==> Columns(Bars(candles), r.value.0, r.value.1, r.value.2)
  {
    var highs: seq<real> := [];
    var lows: seq<real> := [];
    var closes: seq<real> := [];
    var i := 0;
    while i < |candles|
      invariant 0 <= i <= |candles|
      invariant AllBars(candles[..i])
      invariant Columns(Bars(candles[..i]), highs, lows, closes)
    {
      var c := candles[i];
      var h := FloatOf(Field(c, "high"));
      var l := FloatOf(Field(c, "low"));
      var cl := FloatOf(Field(c, "close"));
      if !c.Dict? || h.None? || l.None? || cl.None? {
        assert BarOf(candles[i]).None?;
        return None;
      }
      assert BarOf(c) == Some(Bar(h.value, l.value, cl.value));
      assert candles[..i + 1] == candles[..i] + [c];
      highs := highs + [h.value];
      lows := lows + [l.value];
      closes := closes + [cl.value];
      i := i + 1;
    }
    assert candles[..i] == candles;
    return Some((highs, lows, closes));
  }

  /** The summing loop of `_atr` over the converted columns, from `start` to the end. */
  method SumTrueRanges(bs: seq<Bar>, highs: seq<real>, lows: seq<real>, closes: seq<real>, start: int)
    returns (sum: real)
    requires Columns(bs, highs, lows, closes) && 1 <= start <= |bs|
    ensures sum == TrSum(bs, start, |bs|)
  {
    sum := 0.0;
    var k := start;
    while k < |closes|
      invariant start <= k <= |closes|
      invariant sum == TrSum(bs, start, k)
    {
      sum := sum + TrueRange(highs[k], lows[k], closes[k - 1]);
      k := k + 1;
    }
  }

  // ---------------------------------------------------------------------
  // Entry filters
  // ---------------------------------------------------------------------

  datatype EntryReason =
    | NotApplied | NotApplicable | NotEnoughCandles | SpreadTooHigh | BadCloseValues
    | WrongDirection | AtrUnavailable | AtrMoveTooSmall | EntryOk

  /** `_spread_points_from_candle`: `spread_points`, else `spread`, as a float; None when absent or unconvertible. */
  function SpreadPoints(c: Record): (r: Option<real>)
    ensures Field(c, "spread_points") != VNone ==> r == FloatOf(Field(c, "spread_points"))
    ensures Field(c, "spread_points") == VNone && Field(c, "spread") == VNone ==> r.None?
  {
    var v := if Field(c, "spread_points") != VNone then Field(c, "spread_points") else Field(c, "spread");
    if v == VNone then None else FloatOf(v)
  }

  /** `last_close - prev_close`; None where reading either close raises. */
  function CloseDelta(candles: seq<Record>): Option<real>
    requires |candles| >= 2
  {
    var last := candles[|candles| - 1];
    var prev := candles[|candles| - 2];
    if last.Dict? && prev.Dict? && FloatOf(Field(last, "close")).Some? && FloatOf(Field(prev, "close")).Some? then
      Some(FloatOf(Field(last, "close")).value - FloatOf(Field(prev, "close")).value)
    else None
  }

  /** The spread of the last candle exceeds a positive cap. */
  predicate SpreadExceeds(cfg: StrongConfig, candles: seq<Record>) {
    cfg.maxSpreadPoints > 0.0 && candles != [] && Last(candles).Dict? &&
    SpreadPoints(Last(candles)).Some? && SpreadPoints(Last(candles)).value > cfg.maxSpreadPoints
  }

  /**
   * `_passes_entry_filters`: a directional signal needs two candles, an
   * acceptable spread, readable closes, a last move in the signal's
   * direction and, when the ATR is available, a move of at least
   * `atr_move_mult` ATRs.
   */
  function EntryFilter(cfg: StrongConfig, candles: seq<Record>, raw: Label): (r: (bool, EntryReason))
    ensures raw == LHold ==> r == (true, NotApplicable)
    ensures raw != LHold && |candles| < 2 ==> r == (false, NotEnoughCandles)
    ensures raw != LHold && |candles| >= 2 ==>
              (SpreadExceeds(cfg, candles) ==> r == (false, SpreadTooHigh)) &&
              (!SpreadExceeds(cfg, candles) ==>
                 r == MoveGate(raw, CloseDelta(candles), AtrSpec(candles, cfg.atrPeriod), cfg.atrMoveMult))
    ensures !r.0 ==> raw != LHold
  {
    if raw == LHold then (true, NotApplicable)
    else if |candles| < 2 then (false, NotEnoughCandles)
    else if SpreadExceeds(cfg, candles) then (false, SpreadTooHigh)
    else MoveGate(raw, CloseDelta(candles), AtrSpec(candles, cfg.atrPeriod), cfg.atrMoveMult)
  }

  /**
   * What passing the filters means for a buy or sell: two candles, no
   * spread above the cap and a last move in the signal's direction (the
   * momentum part is `MoveGate`'s contract).
   */
  lemma PassedEntryFilter(cfg: StrongConfig, candles: seq<Record>, raw: Label)
    requires raw != LHold && EntryFilter(cfg, candles, raw).0
    ensures |candles| >= 2 && !SpreadExceeds(cfg, candles)
    ensures CloseDelta(candles).Some?
    ensures raw == LBuy ==> CloseDelta(candles).value > 0.0
    ensures raw == LSell ==> CloseDelta(candles).value < 0.0
  {
  }

  /** The closes, the direction of the last move, then the momentum gate. */
  function MoveGate(raw: Label, delta: Option<real>, atr: Option<real>, mult: real): (r: (bool, EntryReason))
    requires raw != LHold
    ensures r.0 ==> delta.Some? && (raw == LBuy ==> delta.value > 0.0) && (raw == LSell ==> delta.value < 0.0)
    ensures r.0 && atr.Some? && atr.value > 0.0 ==> Abs(delta.value) >= mult * atr.value
    ensures (delta.Some? && (raw == LBuy ==> delta.value > 0.0) && (raw == LSell ==> delta.value < 0.0) &&
             (atr.None? || atr.value <= 0.0)) ==> r.0
  {
    match delta
    case None => (false, BadCloseValues)
    case Some(d) =>
      if raw == LBuy && d <= 0.0 then (false, WrongDirection)
      else if raw == LSell && d >= 0.0 then (false, WrongDirection)
      else AtrGate(d, atr, mult)
  }

  /** The momentum gate: passes without a positive ATR, otherwise needs a move of `mult` ATRs. */
  function AtrGate(delta: real, atr: Option<real>, mult: real): (r: (bool, EntryReason))
    ensures atr.None? || atr.value <= 0.0 ==> r == (true, AtrUnavailable)
    ensures atr.Some? && atr.value > 0.0 ==> (r.0 <==> Abs(delta) >= mult * atr.value)
  {
    match atr
    case None => (true, AtrUnavailable)
    case Some(a) =>
      if a <= 0.0 then (true, AtrUnavailable)
      else if Abs(delta) < mult * a then (false, AtrMoveTooSmall)
      else (true, EntryOk)
  }

  // ---------------------------------------------------------------------
  // The strong-signal decision
  // ---------------------------------------------------------------------

  /**
   * What the SMA, MACD and RSI functions return for the candles they are
   * given: the SMA label (None when it fails), the MACD and signal lines
   * (empty when missing) and the RSI values (None when it fails).
   */
  datatype Indicators = Indicators(sma: Value, macdLine: seq<real>, signalLine: seq<real>, rsi: Option<seq<Value>>)

  datatype Trend = Bullish | Bearish | Neutral

  function SmaTrend(sma: Value): Trend {
    if sma == VStr("buy") then Bullish else if sma == VStr("sell") then Bearish else Neutral
  }

  function SmaStrength(sma: Value): (s: real)
    ensures s == 1.0 <==> SmaTrend(sma) != Neutral
    ensures s == 0.0 || s == 1.0
  {
    if SmaTrend(sma) != Neutral then 1.0 else 0.0
  }

  function MacdTrend(macd: real, signal: real): Trend {
    if macd > signal then Bullish else if macd < signal then Bearish else Neutral
  }

  /** The indicator outputs the decision can use: an SMA label, both MACD lines and a readable last RSI value. */
  predicate Usable(ind: Indicators) {
    ind.sma != VNone && ind.macdLine != [] && ind.signalLine != [] &&
    ind.rsi.Some? && ind.rsi.value != [] && FloatOf(Last(ind.rsi.value)).Some?
  }

  /** `(sma_strength + |macd - signal|) / 2`. */
  function Confidence(ind: Indicators): (c: real)
    requires ind.macdLine != [] && ind.signalLine != []
    ensures c >= 0.0
    ensures c == (SmaStrength(ind.sma) + Abs(Last(ind.macdLine) - Last(ind.signalLine))) / 2.0
  {
    (SmaStrength(ind.sma) + Abs(Last(ind.macdLine) - Last(ind.signalLine))) / 2.0
  }

  /** Buy when SMA and MACD are both bullish and the confidence reaches the threshold; sell symmetrically. */
  function RawDecision(ind: Indicators, threshold: real): (l: Label)
    requires ind.macdLine != [] && ind.signalLine != []
  {
    var macd := MacdTrend(Last(ind.macdLine), Last(ind.signalLine));
    if SmaTrend(ind.sma) == Bullish && macd == Bullish && Confidence(ind) >= threshold then LBuy
    else if SmaTrend(ind.sma) == Bearish && macd == Bearish && Confidence(ind) >= threshold then LSell
    else LHold
  }

  /**
   * A strategy result: an error dict, a hold while waiting for a closed
   * candle, a decision, or the hold stub the multi-timeframe strategy puts
   * in for a timeframe without candles.
   */
  datatype Signal =
    | SignalError(error: string)
    | WaitingForClosedCandle(symbol: Value, candlesIn: nat, candlesUsed: nat, minRequired: nat)
    | Decided(symbol: Value, raw: Label, final: Label, confidence: real, entryReason: EntryReason)
    | HoldStub

  /**
   * `StrongSignalStrategy.generate_signal`. `indicators` stands for the
   * SMA, MACD and RSI functions, which see only the filtered candles.
   */
  function StrongGenerate(cfg: StrongConfig, candles: seq<Record>, indicators: seq<Record> -> Indicators, applyFilters: bool): (s: Signal)
    ensures candles == [] || |candles| < cfg.minCandles ==> s.SignalError?
    ensures s.WaitingForClosedCandle? ==>
              s.candlesUsed == |CandlesForIndicators(cfg, candles)| &&
              (s.candlesUsed == 0 || s.candlesUsed < s.minRequired)
    ensures s.Decided? ==>
              var ind := indicators(CandlesForIndicators(cfg, candles));
              Usable(ind) && s.confidence == Confidence(ind) &&
              var macd := MacdTrend(Last(ind.macdLine), Last(ind.signalLine));
              (s.raw == LBuy <==> SmaTrend(ind.sma) == Bullish && macd == Bullish && s.confidence >= cfg.confidenceThreshold) &&
              (s.raw == LSell <==> SmaTrend(ind.sma) == Bearish && macd == Bearish && s.confidence >= cfg.confidenceThreshold)
    ensures s.Decided? ==> (s.final == s.raw <==> !applyFilters || EntryFilter(cfg, CandlesForIndicators(cfg, candles), s.raw).0)
    ensures s.Decided? && s.final != s.raw ==> s.final == LHold
    ensures s.Decided? ==> s.symbol == StrategySymbol(cfg, candles)
    ensures !s.HoldStub?
    // Conversely: enough candles before and after filtering, and indicators that all answered, give a decision.
    ensures (candles != [] && |candles| >= cfg.minCandles &&
             var ci := CandlesForIndicators(cfg, candles);
             ci != [] && |ci| >= MinCandlesAfterFiltering(cfg) && Usable(indicators(ci))) ==>
              s.Decided? && s.raw == RawDecision(indicators(CandlesForIndicators(cfg, candles)), cfg.confidenceThreshold)
    ensures (candles != [] && |candles| >= cfg.minCandles &&
             var ci := CandlesForIndicators(cfg, candles);
             ci == [] || |ci| < MinCandlesAfterFiltering(cfg)) <==> s.WaitingForClosedCandle?
  {
    if candles == [] || |candles| < cfg.minCandles then SignalError("Not enough data for calculations")
    else
      var symbol := StrategySymbol(cfg, candles);
      var ci := CandlesForIndicators(cfg, candles);
      var minAfter := MinCandlesAfterFiltering(cfg);
      if ci == [] || |ci| < minAfter then WaitingForClosedCandle(symbol, |candles|, |ci|, minAfter)
      else
        var ind := indicators(ci);
        if ind.sma == VNone then SignalError("SMA signal generation failed")
        else if ind.macdLine == [] || ind.signalLine == [] then SignalError("MACD signal generation failed")
        else if ind.rsi.None? || ind.rsi.value == [] then SignalError("RSI calculation failed")
        else if FloatOf(Last(ind.rsi.value)).None? then SignalError("RSI latest value invalid")
        else
          var raw := RawDecision(ind, cfg.confidenceThreshold);
          if applyFilters then
            var f := EntryFilter(cfg, ci, raw);
            Decided(symbol, raw, if f.0 then raw else LHold, Confidence(ind), f.1)
          else Decided(symbol, raw, raw, Confidence(ind), NotApplied)
  }

  /** The RSI is informational: two indicator sets that differ only in a usable RSI give the same result. */
  lemma RsiNeverDecides(cfg: StrongConfig, candles: seq<Record>, f: seq<Record> -> Indicators, g: seq<Record> -> Indicators, applyFilters: bool)
    requires var ci := CandlesForIndicators(cfg, candles);
             f(ci).sma == g(ci).sma && f(ci).macdLine == g(ci).macdLine && f(ci).signalLine == g(ci).signalLine &&
             f(ci).rsi.Some? && f(ci).rsi.value != [] && FloatOf(Last(f(ci).rsi.value)).Some? &&
             g(ci).rsi.Some? && g(ci).rsi.value != [] && FloatOf(Last(g(ci).rsi.value)).Some?
    ensures StrongGenerate(cfg, candles, f, applyFilters) == StrongGenerate(cfg, candles, g, applyFilters)
  {
  }

  // ---------------------------------------------------------------------
  // Multi-timeframe gate
  // ---------------------------------------------------------------------

  /** A key of the candles-by-timeframe mapping: an int (1, 5, 15) or a string ("m5", "5"). */
  datatype TfKey = KInt(i: int) | KStr(s: string)

  /** `str(k).lower()`. */
  function KeyText(k: TfKey): string {
    match k
    case KInt(i) => IntToString(i)
    case KStr(s) => Lower(s)
  }

  /** The value under the int key `tf`, if there is one. */
  function IntKeyValue(pairs: seq<(TfKey, Option<seq<Record>>)>, tf: int): Option<Option<seq<Record>>> {
    if pairs == [] then None
    else if pairs[0].0 == KInt(tf) then Some(pairs[0].1)
    else IntKeyValue(pairs[1..], tf)
  }

  /**
   * `lower_map.get(text)`: the lowered-key map keeps the last entry (in
   * insertion order) whose key lowers to `text`; None when there is none or
   * its value is None.
   */
  function LowerGet(pairs: seq<(TfKey, Option<seq<Record>>)>, text: string): (r: Option<seq<Record>>)
    ensures r.Some? ==> exists i :: 0 <= i < |pairs| && KeyText(pairs[i].0) == text && pairs[i].1 == r
    ensures (forall i :: 0 <= i < |pairs| ==> KeyText(pairs[i].0) != text) ==> r.None?
  {
    if pairs == [] then None
    else if KeyText(Last(pairs).0) == text then Last(pairs).1
    else
      var r := LowerGet(pairs[..|pairs| - 1], text);
      assert forall i :: 0 <= i < |pairs| - 1 ==> pairs[..|pairs| - 1][i] == pairs[i];
      r
  }

  /** `_get(tf)`: the int key, then `str(tf)`, then `"m{tf}"`, else no candles. */
  function TfCandles(pairs: seq<(TfKey, Option<seq<Record>>)>, tf: int): (cs: seq<Record>)
    ensures IntKeyValue(pairs, tf).Some? ==> cs == IntKeyValue(pairs, tf).value.GetOr([])
    ensures IntKeyValue(pairs, tf).None? && LowerGet(pairs, IntToString(tf)).Some? ==>
              cs == LowerGet(pairs, IntToString(tf)).value
    ensures IntKeyValue(pairs, tf).None? && LowerGet(pairs, IntToString(tf)).None? ==>
              cs == LowerGet(pairs, "m" + IntToString(tf)).GetOr([])
  {
    match IntKeyValue(pairs, tf)
    case Some(v) => v.GetOr([])
    case None =>
      match LowerGet(pairs, IntToString(tf))
      case Some(v) => v
      case None => LowerGet(pairs, "m" + IntToString(tf)).GetOr([])
  }

  /** Bias, confirmation and entry timeframes; MetaTrader's M15, M5 and M1 by default. */
  datatype MultiConfig = MultiConfig(tfBias: int, tfConfirm: int, tfEntry: int)

  const DefaultMultiConfig: MultiConfig := MultiConfig(15, 5, 1)

  datatype HoldReason = TfError | WaitingClosed

  datatype MultiSignal =
    | MultiHold(symbol: Value, reason: HoldReason)
    | MultiDecided(symbol: Value, final: Label, confidence: real, bias: Label, confirm: Label, entry: Label, pullbackCompleted: bool)

  /** The `symbol` a sub-result carries (None for errors and stubs). */
  function SymbolOf(s: Signal): Value {
    if s.WaitingForClosedCandle? || s.Decided? then s.symbol else VNone
  }

  /** `raw_signal` of a sub-result, "hold" when it has none. */
  function RawOf(s: Signal): Label {
    if s.Decided? then s.raw else LHold
  }

  /** `final_signal` of a sub-result, "hold" when it has none. */
  function FinalOf(s: Signal): Label {
    if s.Decided? then s.final else LHold
  }

  /**
   * The first of the sub-results that reports an error or waits for a
   * closed candle decides the hold reason. An error whose message is empty
   * is falsy and does not block.
   */
  function Blocking(ss: seq<Signal>): (r: Option<HoldReason>)
    ensures r.None? <==> forall i :: 0 <= i < |ss| ==> !(ss[i].SignalError? && ss[i].error != "") && !ss[i].WaitingForClosedCandle?
  {
    if ss == [] then None
    else if ss[0].SignalError? && ss[0].error != "" then Some(TfError)
    else if ss[0].WaitingForClosedCandle? then Some(WaitingClosed)
    else
      var r := Blocking(ss[1..]);
      assert forall i :: 1 <= i < |ss| ==> ss[1..][i - 1] == ss[i];
      r
  }

  /** A close value as the arithmetic of `_pullback_completed` sees it; None where it would raise. */
  function Num(v: Value): Option<real> {
    match RawNumber(v)
    case Parsed(x) => Some(x)
    case _ => None
  }

  /** `[c["close"] for c in candles if "close" in c]`; None when a candle is not a dict (the membership test raises). */
  function ClosesOf(candles: seq<Record>): (r: Option<seq<Value>>)
    ensures r.Some? ==> |r.value| <= |candles|
  {
    if candles == [] then Some([])
    else if !candles[0].Dict? then None
    else match ClosesOf(candles[1..])
      case None => None
      case Some(rest) => Some((if "close" in candles[0].entries then [candles[0].entries["close"]] else []) + rest)
  }

  function SumNums(vs: seq<Value>): Option<real> {
    if vs == [] then Some(0.0)
    else match (Num(vs[0]), SumNums(vs[1..]))
      case (Some(x), Some(s)) => Some(x + s)
      case _ => None
  }

  /** `any(c < sma20 for c in xs)`, raising at the first value that does not compare before one is found below. */
  function AnyBelow(xs: seq<Value>, bound: real): (r: Try<bool>)
    ensures r == Ok(true) <==> SomeFirstBelow(xs, bound)
    ensures r == Ok(false) <==> forall i :: 0 <= i < |xs| ==> Num(xs[i]).Some? && Num(xs[i]).value >= bound
  {
    if xs == [] then Ok(false)
    else match Num(xs[0])
      case None => Raised
      case Some(x) =>
        if x < bound then
          assert FirstBelow(xs, 0, bound);
          Ok(true)
        else
          var r := AnyBelow(xs[1..], bound);
          assert forall i :: 1 <= i < |xs| ==> xs[1..][i - 1] == xs[i];
          ShiftFirstBelow(xs, bound);
          r
  }

  /** `xs[i]` is below `bound` and every value before it compares (the generator reaches it without raising). */
  predicate FirstBelow(xs: seq<Value>, i: int, bound: real)
    requires 0 <= i < |xs|
  {
    Num(xs[i]).Some? && Num(xs[i]).value < bound && forall j :: 0 <= j < i ==> Num(xs[j]).Some?
  }

  /** Some value of `xs` is below `bound`, reached without a value that fails to compare. */
  predicate SomeFirstBelow(xs: seq<Value>, bound: real) {
    exists i :: 0 <= i < |xs| && FirstBelow(xs, i, bound)
  }

  /** A numeric head not below `bound` leaves the question to the tail. */
  lemma ShiftFirstBelow(xs: seq<Value>, bound: real)
    requires xs != [] && Num(xs[0]).Some? && Num(xs[0]).value >= bound
    ensures SomeFirstBelow(xs, bound) <==> SomeFirstBelow(xs[1..], bound)
  {
    if SomeFirstBelow(xs, bound) {
      var i :| 0 <= i < |xs| && FirstBelow(xs, i, bound);
      assert i > 0;
      assert forall j :: 0 <= j < i - 1 ==> xs[1..][j] == xs[j + 1];
      assert FirstBelow(xs[1..], i - 1, bound);
    }
    if SomeFirstBelow(xs[1..], bound) {
      var i :| 0 <= i < |xs[1..]| && FirstBelow(xs[1..], i, bound);
      assert forall j :: 1 <= j < i + 1 ==> xs[j] == xs[1..][j - 1];
      assert FirstBelow(xs, i + 1, bound);
    }
  }

  /**
   * At least 21 closes, all of the last 20 numeric; a close among those
   * 25 to 21 back lies below their average, every close before it in that
   * window compares, and the last close lies above the average.
   */
  predicate PulledBack(cl: seq<Value>) {
    var n := |cl|;
    n >= 21 && SumNums(cl[n - 20..]).Some? &&
    SomeFirstBelow(cl[(if n >= 25 then n - 25 else 0)..n - 20], SumNums(cl[n - 20..]).value / 20.0) &&
    Num(cl[n - 1]).Some? && Num(cl[n - 1]).value > SumNums(cl[n - 20..]).value / 20.0
  }

  /**
   * `_pullback_completed`: with at least 21 closes, some close among those
   * 25 to 21 back lies below the 20-close average and the last one above it.
   */
  function Pullback(candles: seq<Record>): (r: Try<bool>)
    ensures ClosesOf(candles).Some? && |ClosesOf(candles).value| < 21 ==> r == Ok(false)
    ensures r == Ok(true) <==> ClosesOf(candles).Some? && PulledBack(ClosesOf(candles).value)
  {
    match ClosesOf(candles)
    case None => Raised
    case Some(cl) =>
      var n := |cl|;
      if n < 21 then Ok(false)
      else match SumNums(cl[n - 20..])
        case None => Raised
        case Some(total) =>
          var sma := total / 20.0;
          var lo := if n >= 25 then n - 25 else 0;
          match AnyBelow(cl[lo..n - 20], sma)
          case Raised => Raised
          case Ok(wasBelow) =>
            match Num(cl[n - 1])
            case None => Raised
            case Some(lastClose) =>
              Ok(wasBelow && lastClose > sma)
  }

  /**
   * `MultiTimeframeStrongSignalStrategy.generate_signal`, over any base
   * strategy `base` (its candles and whether entry filters apply): the base
   * on each timeframe (entry filters only on the entry timeframe); hold with
   * a reason when any of them errs or waits; otherwise buy or sell only when
   * the bias and confirmation raw signals and the entry final signal agree
   * and the pullback completed. `defaultSymbol` is `config.SYMBOLS[0]`,
   * None where reading it raises. Raised where a base call, the symbol
   * fallback or the pullback arithmetic raises.
   */
  function MultiGenerate(defaultSymbol: Option<string>, m: MultiConfig, pairs: seq<(TfKey, Option<seq<Record>>)>,
                         base: (seq<Record>, bool) -> Try<Signal>): (r: Try<MultiSignal>)
    ensures r.Ok? && r.value.MultiDecided? ==>
              (r.value.final == LBuy <==>
                 r.value.bias == LBuy && r.value.confirm == LBuy && r.value.entry == LBuy && r.value.pullbackCompleted) &&
              (r.value.final == LSell <==>
                 r.value.bias == LSell && r.value.confirm == LSell && r.value.entry == LSell && r.value.pullbackCompleted)
    ensures r.Ok? ==>
              SubSignal(base, TfCandles(pairs, m.tfBias), false).Ok? &&
              SubSignal(base, TfCandles(pairs, m.tfConfirm), false).Ok? &&
              SubSignal(base, TfCandles(pairs, m.tfEntry), true).Ok?
    ensures (SubSignal(base, TfCandles(pairs, m.tfBias), false).Raised? ||
             SubSignal(base, TfCandles(pairs, m.tfConfirm), false).Raised? ||
             SubSignal(base, TfCandles(pairs, m.tfEntry), true).Raised?) ==> r.Raised?
    ensures r.Ok? && r.value.MultiDecided? ==>
              var ce := TfCandles(pairs, m.tfEntry);
              r.value.bias == RawOf(SubSignal(base, TfCandles(pairs, m.tfBias), false).value) &&
              r.value.confirm == RawOf(SubSignal(base, TfCandles(pairs, m.tfConfirm), false).value) &&
              r.value.entry == FinalOf(SubSignal(base, ce, true).value) &&
              (r.value.pullbackCompleted <==> ce != [] && Pullback(ce) == Ok(true))
    ensures r.Ok? ==>
              var ss := [SubSignal(base, TfCandles(pairs, m.tfBias), false).value,
                         SubSignal(base, TfCandles(pairs, m.tfConfirm), false).value,
                         SubSignal(base, TfCandles(pairs, m.tfEntry), true).value];
              (Blocking(ss).Some? <==> r.value.MultiHold?) &&
              (Blocking(ss).Some? ==> r.value.reason == Blocking(ss).value)
    ensures r.Raised? ==>
              SubSignal(base, TfCandles(pairs, m.tfBias), false).Raised? ||
              SubSignal(base, TfCandles(pairs, m.tfConfirm), false).Raised? ||
              SubSignal(base, TfCandles(pairs, m.tfEntry), true).Raised? ||
              defaultSymbol.None? ||
              (TfCandles(pairs, m.tfEntry) != [] && Pullback(TfCandles(pairs, m.tfEntry)).Raised?)
  {
    var cb := TfCandles(pairs, m.tfBias);
    var cc := TfCandles(pairs, m.tfConfirm);
    var ce := TfCandles(pairs, m.tfEntry);
    var rb, rc, re := SubSignal(base, cb, false), SubSignal(base, cc, false), SubSignal(base, ce, true);
    if rb.Raised? || rc.Raised? || re.Raised? then Raised
    else
      var sb, sc, se := rb.value, rc.value, re.value;
      var symbol := if Truthy(SymbolOf(se)) then Some(SymbolOf(se))
                    else if Truthy(SymbolOf(sc)) then Some(SymbolOf(sc))
                    else if Truthy(SymbolOf(sb)) then Some(SymbolOf(sb))
                    else if defaultSymbol.Some? then Some(VStr(defaultSymbol.value))
                    else None;
      if symbol.None? then Raised
      else
        match Blocking([sb, sc, se])
        case Some(reason) => Ok(MultiHold(symbol.value, reason))
        case None =>
          var bias := RawOf(sb);
          var confirm := RawOf(sc);
          var entry := FinalOf(se);
          var pull := if ce != [] then Pullback(ce) else Ok(false);
          match pull
          case Raised => Raised
          case Ok(p) =>
            var final := if bias == LBuy && confirm == LBuy && entry == LBuy && p then LBuy
                         else if bias == LSell && confirm == LSell && entry == LSell && p then LSell
                         else LHold;
            Ok(MultiDecided(symbol.value, final, if se.Decided? then se.confidence else 0.0, bias, confirm, entry, p))
  }

  /** One timeframe's result: the base strategy on its candles, or the hold stub when it has none. */
  function SubSignal(base: (seq<Record>, bool) -> Try<Signal>, cs: seq<Record>, applyFilters: bool): (r: Try<Signal>)
    ensures cs == [] ==> r == Ok(HoldStub)
  {
    if cs != [] then base(cs, applyFilters) else Ok(HoldStub)
  }

  /** A timeframe without candles can never let a trade through. */
  lemma MissingTimeframeHolds(defaultSymbol: Option<string>, m: MultiConfig, pairs: seq<(TfKey, Option<seq<Record>>)>,
                              base: (seq<Record>, bool) -> Try<Signal>)
    requires TfCandles(pairs, m.tfBias) == [] || TfCandles(pairs, m.tfConfirm) == [] || TfCandles(pairs, m.tfEntry) == []
    ensures var r := MultiGenerate(defaultSymbol, m, pairs, base);
            r.Ok? && r.value.MultiDecided? ==> r.value.final == LHold
  {
  }

  /** The strong rule as the base of the multi-timeframe gate; it never raises. */
  function StrongBase(cfg: StrongConfig, indicators: seq<Record> -> Indicators): (base: (seq<Record>, bool) -> Try<Signal>)
    ensures forall cs, f :: base(cs, f) == Ok(StrongGenerate(cfg, cs, indicators, f))
  {
    (cs: seq<Record>, f: bool) => Ok(StrongGenerate(cfg, cs, indicators, f))
  }

  /**
   * Over the strong rule the gate never raises outside the pullback
   * arithmetic: every sub-result is a value and the symbol falls back to
   * the configured one.
   */
  lemma StrongMultiRaisesOnlyInPullback(cfg: StrongConfig, m: MultiConfig, pairs: seq<(TfKey, Option<seq<Record>>)>,
                                        indicators: seq<Record> -> Indicators)
    ensures var ce := TfCandles(pairs, m.tfEntry);
            MultiGenerate(Some(cfg.defaultSymbol), m, pairs, StrongBase(cfg, indicators)).Raised? ==>
              ce != [] && Pullback(ce).Raised?
  {
    var base := StrongBase(cfg, indicators);
    assert SubSignal(base, TfCandles(pairs, m.tfBias), false).Ok?;
    assert SubSignal(base, TfCandles(pairs, m.tfConfirm), false).Ok?;
    assert SubSignal(base, TfCandles(pairs, m.tfEntry), true).Ok?;
  }

  // ---------------------------------------------------------------------
  // n-tick confirmation
  // ---------------------------------------------------------------------

  /** Window length, minimum move, optional spread cap, and whether the spread is checked only after confirmation. */
  datatype NTickConfig = NTickConfig(n: int, minPipMove: real, maxSpreadPoints: Option<real>, liquidityCheckAfterNTick: bool)

  /** The wrapper as the factory builds it: `N_TICK_CONFIRMATION` ticks, no minimum move, no spread cap. */
  function FactoryNTickConfig(n: int): NTickConfig {
    NTickConfig(n, 0.0, None, true)
  }

  /** A signal dictionary. */
  type SignalDict = map<string, Value>

  datatype NTickState = NTickState(
    pending: Value,
    entryPrice: Value,
    results: seq<bool>,
    waiting: bool,
    lastSignal: Option<SignalDict>,
    lastCandleId: Value,
    confirmed: Option<SignalDict>)

  const InitialNTickState: NTickState := NTickState(VNone, VNone, [], false, None, VNone, None)

  predicate Directional(v: Value) {
    v == VStr("buy") || v == VStr("sell")
  }

  /** `_reset`: forgets the pending signal but keeps the confirmed buffer and the last candle id. */
  function ResetState(s: NTickState): (r: NTickState)
    ensures r.confirmed == s.confirmed && r.lastCandleId == s.lastCandleId
    ensures !r.waiting && r.pending == VNone && r.results == []
  {
    s.(pending := VNone, entryPrice := VNone, results := [], waiting := false, lastSignal := None)
  }

  /** `(entry_price or 0)` as a number; None where adding the minimum move to it raises. */
  function EntryBase(v: Value): Option<real> {
    if !Truthy(v) then Some(0.0) else Num(v)
  }

  /** The tick window after appending `fav`, with the oldest dropped once it holds more than n. */
  function Slide(results: seq<bool>, fav: bool, n: int): (w: seq<bool>)
    ensures |results| + 1 > n ==> w == (results + [fav])[1..]
    ensures |results| + 1 <= n ==> w == results + [fav]
  {
    var w := results + [fav];
    if |w| > n then w[1..] else w
  }

  predicate AllTrue(w: seq<bool>) { forall i :: 0 <= i < |w| ==> w[i] }
  predicate AllFalse(w: seq<bool>) { forall i :: 0 <= i < |w| ==> !w[i] }

  function OppositeLabel(v: Value): Value {
    if v == VStr("buy") then VStr("sell") else VStr("buy")
  }

  /** The tick compares favourably with the pending entry price. */
  function Favorable(cfg: NTickConfig, s: NTickState, price: real, base: real): bool {
    if s.pending == VStr("buy") then price > base + cfg.minPipMove
    else price < base - cfg.minPipMove
  }

  /**
   * `on_new_tick`: nothing unless waiting on a buy or sell; with the spread
   * checked up front, a spread above the cap clears the window; otherwise
   * the tick's verdict slides into the window, and a full window of
   * favourable ticks confirms the pending side, a full window of
   * unfavourable ones the opposite side, and a mixed one is cleared.
   */
  function TickStep(cfg: NTickConfig, s: NTickState, price: real, spread: Option<real>): (r: Try<NTickState>)
    ensures !s.waiting || !Directional(s.pending) ==> r == Ok(s)
    ensures r.Ok? ==> r.value.lastCandleId == s.lastCandleId
    ensures r.Raised? ==> s.waiting && Directional(s.pending) && EntryBase(s.entryPrice).None?
  {
    if !s.waiting || !Directional(s.pending) then Ok(s)
    else if !cfg.liquidityCheckAfterNTick && cfg.maxSpreadPoints.Some? && spread.Some? &&
            spread.value > cfg.maxSpreadPoints.value then
      Ok(s.(results := []))
    else match EntryBase(s.entryPrice)
      case None => Raised
      case Some(base) =>
        Ok(WindowDecision(cfg, s.(results := Slide(s.results, Favorable(cfg, s, price, base), cfg.n))))
  }

  /**
   * The decision on a window of tick results: n favourable ticks confirm the pending side, n
   * unfavourable ones the opposite side, a full mixed window is cleared, and a shorter one is kept.
   */
  function WindowDecision(cfg: NTickConfig, s: NTickState): NTickState {
    var w := s.results;
    if |w| == cfg.n && AllTrue(w) then
      ResetState(s.(confirmed := Some(s.lastSignal.GetOr(map[])["final_signal" := s.pending]
                                      ["reason" := VStr(IntToString(cfg.n) + "_consecutive_favorable_ticks")])))
    else if |w| == cfg.n && AllFalse(w) then
      ResetState(s.(confirmed := Some(s.lastSignal.GetOr(map[])["final_signal" := OppositeLabel(s.pending)]
                                      ["reason" := VStr(IntToString(cfg.n) + "_consecutive_unfavorable_ticks_opposite_trade")])))
    else if |w| == cfg.n then s.(results := [])
    else s
  }

  /** The window never fills up without a decision: it stays shorter than n, or empty. */
  predicate WindowBounded(cfg: NTickConfig, s: NTickState) {
    |s.results| < cfg.n || s.results == []
  }

  lemma TickStepKeepsWindowBounded(cfg: NTickConfig, s: NTickState, price: real, spread: Option<real>)
    requires WindowBounded(cfg, s)
    ensures TickStep(cfg, s, price, spread).Ok? ==> WindowBounded(cfg, TickStep(cfg, s, price, spread).value)
  {
  }

  /** A full window that is neither all favourable nor all unfavourable is cleared and the wait goes on. */
  lemma MixedWindowClears(cfg: NTickConfig, s: NTickState, price: real)
    requires s.waiting && Directional(s.pending) && EntryBase(s.entryPrice).Some?
    requires |s.results| + 1 == cfg.n
    requires var w := s.results + [Favorable(cfg, s, price, EntryBase(s.entryPrice).value)];
             !AllTrue(w) && !AllFalse(w)
    ensures TickStep(cfg, s, price, None) == Ok(s.(results := []))
  {
  }

  /** The ticks after a state, one at a time (no spread reported). */
  function RunTicks(cfg: NTickConfig, s: NTickState, prices: seq<real>): Try<NTickState>
    decreases |prices|
  {
    if prices == [] then Ok(s)
    else match TickStep(cfg, s, prices[0], None)
      case Raised => Raised
      case Ok(s1) => RunTicks(cfg, s1, prices[1..])
  }

  /**
   * n favourable ticks in a row, starting from an empty window, confirm the
   * pending side and stop the wait.
   */
  lemma NFavorableTicksConfirm(cfg: NTickConfig, s: NTickState, prices: seq<real>)
    requires cfg.n >= 1 && |prices| == cfg.n
    requires s.waiting && Directional(s.pending) && s.results == [] && EntryBase(s.entryPrice).Some?
    requires forall i :: 0 <= i < |prices| ==> Favorable(cfg, s, prices[i], EntryBase(s.entryPrice).value)
    ensures RunTicks(cfg, s, prices).Ok?
    ensures !RunTicks(cfg, s, prices).value.waiting
    ensures RunTicks(cfg, s, prices).value.confirmed.Some?
    ensures "final_signal" in RunTicks(cfg, s, prices).value.confirmed.value
    ensures RunTicks(cfg, s, prices).value.confirmed.value["final_signal"] == s.pending
  {
    ConfirmAfter(cfg, s, prices, 0);
  }

  lemma {:induction false} ConfirmAfter(cfg: NTickConfig, s: NTickState, prices: seq<real>, k: nat)
    requires cfg.n >= 1 && k + |prices| == cfg.n && |prices| >= 1
    requires s.waiting && Directional(s.pending) && |s.results| == k && AllTrue(s.results) && EntryBase(s.entryPrice).Some?
    requires forall i :: 0 <= i < |prices| ==> Favorable(cfg, s, prices[i], EntryBase(s.entryPrice).value)
    ensures RunTicks(cfg, s, prices).Ok?
    ensures !RunTicks(cfg, s, prices).value.waiting
    ensures RunTicks(cfg, s, prices).value.confirmed.Some?
    ensures "final_signal" in RunTicks(cfg, s, prices).value.confirmed.value
    ensures RunTicks(cfg, s, prices).value.confirmed.value["final_signal"] == s.pending
    decreases |prices|
  {
    var base := EntryBase(s.entryPrice).value;
    var w := Slide(s.results, Favorable(cfg, s, prices[0], base), cfg.n);
    assert w == s.results + [true];
    assert AllTrue(w);
    if |prices| == 1 {
      assert |w| == cfg.n;
      var s1 := TickStep(cfg, s, prices[0], None).value;
      assert s1.confirmed.value["final_signal"] == s.pending;
      assert prices[1..] == [];
    } else {
      var s1 := s.(results := w);
      assert TickStep(cfg, s, prices[0], None) == Ok(s1);
      forall i | 0 <= i < |prices[1..]|
        ensures Favorable(cfg, s1, prices[1..][i], EntryBase(s1.entryPrice).value)
      {
        assert prices[1..][i] == prices[i + 1];
      }
      ConfirmAfter(cfg, s1, prices[1..], k + 1);
    }
  }

  /** The candle fields `generate_signal` reads, or Raised when the last candle is an object without `.get`. */
  function LastCandleFields(candles: seq<Record>): Try<(Value, Value)> {
    if candles == [] then Ok((VNone, VNone))
    else
      var last := Last(candles);
      if last.Obj? then Raised
      else if last.entries == map[] then Ok((VNone, VNone))
      else Ok((Field(last, "close"), Field(last, "time")))
  }

  function WaitingReason(n: int): Value {
    VStr("waiting_for_" + IntToString(n) + "_tick_confirmation")
  }

  /**
   * `generate_signal`: hands out a buffered confirmation first (without
   * consulting the base strategy); otherwise it resets on a new candle
   * time, starts waiting on a new buy or sell, and answers hold.
   * `signal` is what the wrapped strategy returned for these candles.
   */
  function GenerateStep(cfg: NTickConfig, s: NTickState, candles: seq<Record>, signal: SignalDict): (r: Try<(NTickState, SignalDict)>)
    ensures s.confirmed.Some? ==> r == Ok((s.(confirmed := None), s.confirmed.value))
    ensures s.confirmed.None? && r.Ok? ==>
              "final_signal" in r.value.1 && r.value.1["final_signal"] == VStr("hold") && r.value.0.confirmed.None?
  {
    if s.confirmed.Some? then Ok((s.(confirmed := None), s.confirmed.value))
    else
      var raw := if "final_signal" in signal then signal["final_signal"] else VStr("hold");
      match LastCandleFields(candles)
      case Raised => Raised
      case Ok(fields) =>
        var s1 := if fields.1 != s.lastCandleId then ResetState(s).(lastCandleId := fields.1) else s;
        if Directional(raw) && s1.pending != raw then
          Ok((s1.(pending := raw, entryPrice := fields.0, results := [], waiting := true, lastSignal := Some(signal)),
              signal["final_signal" := VStr("hold")]["reason" := WaitingReason(cfg.n)]))
        else if s1.waiting then
          Ok((s1, signal["final_signal" := VStr("hold")]["reason" := WaitingReason(cfg.n)]))
        else
          Ok((if !Directional(raw) then ResetState(s1) else s1,
              signal["final_signal" := VStr("hold")]["reason" := VStr("waiting_for_tick_confirmation")]))
  }

  /**
   * A confirmation is handed out exactly once: the call that returns it
   * empties the buffer, and a call with an empty buffer only ever answers
   * hold.
   */
  lemma ConfirmationHandedOutOnce(cfg: NTickConfig, s: NTickState, c1: seq<Record>, sig1: SignalDict,
                                  c2: seq<Record>, sig2: SignalDict)
    requires s.confirmed.Some?
    ensures GenerateStep(cfg, s, c1, sig1).Ok?
    ensures var s1 := GenerateStep(cfg, s, c1, sig1).value.0;
            GenerateStep(cfg, s1, c2, sig2).Ok? ==> GenerateStep(cfg, s1, c2, sig2).value.1["final_signal"] == VStr("hold")
  {
  }

  /** A new candle time with a buy or sell base signal starts a fresh confirmation from that candle's close. */
  lemma NewSignalStartsPending(cfg: NTickConfig, s: NTickState, candles: seq<Record>, signal: SignalDict)
    requires s.confirmed.None?
    requires LastCandleFields(candles).Ok? && LastCandleFields(candles).value.1 != s.lastCandleId
    requires "final_signal" in signal && Directional(signal["final_signal"])
    ensures var r := GenerateStep(cfg, s, candles, signal);
            r.Ok? && r.value.0.pending == signal["final_signal"] && r.value.0.waiting &&
            r.value.0.entryPrice == LastCandleFields(candles).value.0 && r.value.0.results == [] &&
            r.value.0.confirmed.None? && r.value.0.lastCandleId == LastCandleFields(candles).value.1
  {
  }

  /** A new candle time with a non-directional base signal drops whatever was pending. */
  lemma NewCandleResets(cfg: NTickConfig, s: NTickState, candles: seq<Record>, signal: SignalDict)
    requires s.confirmed.None?
    requires LastCandleFields(candles).Ok? && LastCandleFields(candles).value.1 != s.lastCandleId
    requires !Directional(if "final_signal" in signal then signal["final_signal"] else VStr("hold"))
    ensures var r := GenerateStep(cfg, s, candles, signal);
            r.Ok? && !r.value.0.waiting && r.value.0.pending == VNone &&
            r.value.0.lastCandleId == LastCandleFields(candles).value.1
  {
  }

  /** `get_confirmed_signal`: the buffer, emptied. */
  function TakeConfirmed(s: NTickState): (r: (NTickState, Option<SignalDict>))
    ensures r.1 == s.confirmed && r.0.confirmed.None?
    ensures r.0 == s.(confirmed := None)
  {
    (s.(confirmed := None), s.confirmed)
  }

  /** `NTickConfirmedSignalStrategy` of the signal-generation helpers. */
  class NTickConfirmation {
    const cfg: NTickConfig
    var pending: Value
    var entryPrice: Value
    var tickResults: seq<bool>
    var waiting: bool
    var lastSignal: Option<SignalDict>
    var lastCandleId: Value
    var confirmedSignal: Option<SignalDict>

    function State(): NTickState
      reads this
    {
      NTickState(pending, entryPrice, tickResults, waiting, lastSignal, lastCandleId, confirmedSignal)
    }

    constructor(cfg: NTickConfig)
      ensures this.cfg == cfg && State() == InitialNTickState
    {
      this.cfg := cfg;
      pending := VNone;
      entryPrice := VNone;
      tickResults := [];
      waiting := false;
      lastSignal := None;
      lastCandleId := VNone;
      confirmedSignal := None;
    }

    /** `_reset`. */
    method Reset()
      modifies this
      ensures State() == ResetState(old(State()))
    {
      pending := VNone;
      entryPrice := VNone;
      tickResults := [];
      waiting := false;
      lastSignal := None;
    }

    /** `on_new_tick`; `raised` where the comparison with the entry price raises (the state is then unchanged). */
    method OnNewTick(price: real, spread: Option<real>) returns (raised: bool)
      modifies this
      ensures raised <==> TickStep(cfg, old(State()), price, spread).Raised?
      ensures !raised ==> State() == TickStep(cfg, old(State()), price, spread).value
      ensures raised ==> State() == old(State())
    {
      if !waiting || !Directional(pending) {
        return false;
      }
      if !cfg.liquidityCheckAfterNTick && cfg.maxSpreadPoints.Some? && spread.Some? && spread.value > cfg.maxSpreadPoints.value {
        tickResults := [];
        return false;
      }
      var base := EntryBase(entryPrice);
      if base.None? {
        return true;
      }
      var favorable := Favorable(cfg, State(), price, base.value);
      tickResults := tickResults + [favorable];
      if |tickResults| > cfg.n {
        tickResults := tickResults[1..];
      }
      DecideWindow();
      return false;
    }

    /** The decision taken once the new tick's result is in the window. */
    method DecideWindow()
      modifies this
      ensures State() == WindowDecision(cfg, old(State()))
    {
      if |tickResults| == cfg.n {
        if AllTrue(tickResults) {
          confirmedSignal := Some(lastSignal.GetOr(map[])["final_signal" := pending]
                                  ["reason" := VStr(IntToString(cfg.n) + "_consecutive_favorable_ticks")]);
          Reset();
        } else if AllFalse(tickResults) {
          confirmedSignal := Some(lastSignal.GetOr(map[])["final_signal" := OppositeLabel(pending)]
                                  ["reason" := VStr(IntToString(cfg.n) + "_consecutive_unfavorable_ticks_opposite_trade")]);
          Reset();
        } else {
          tickResults := [];
        }
      }
    }

    /** `generate_signal`, given what the wrapped strategy answered for these candles. */
    method GenerateSignal(candles: seq<Record>, signal: SignalDict) returns (r: Try<SignalDict>)
      modifies this
      ensures GenerateStep(cfg, old(State()), candles, signal).Ok? ==>
                r == Ok(GenerateStep(cfg, old(State()), candles, signal).value.1) &&
                State() == GenerateStep(cfg, old(State()), candles, signal).value.0
      ensures GenerateStep(cfg, old(State()), candles, signal).Raised? ==> r.Raised? && State() == old(State())
    {
      if confirmedSignal.Some? {
        var sig := confirmedSignal.value;
        confirmedSignal := None;
        return Ok(sig);
      }
      var raw := if "final_signal" in signal then signal["final_signal"] else VStr("hold");
      var fields := LastCandleFields(candles);
      if fields.Raised? {
        return Raised;
      }
      var (close, candleId) := fields.value;
      if candleId != lastCandleId {
        Reset();
        lastCandleId := candleId;
      }
      if Directional(raw) && pending != raw {
        pending, entryPrice, tickResults, waiting, lastSignal := raw, close, [], true, Some(signal);
        return Ok(signal["final_signal" := VStr("hold")]["reason" := WaitingReason(cfg.n)]);
      }
      if waiting {
        return Ok(signal["final_signal" := VStr("hold")]["reason" := WaitingReason(cfg.n)]);
      }
      if !Directional(raw) {
        Reset();
      }
      return Ok(signal["final_signal" := VStr("hold")]["reason" := VStr("waiting_for_tick_confirmation")]);
    }

    /** `get_confirmed_signal`. */
    method GetConfirmedSignal() returns (sig: Option<SignalDict>)
      modifies this
      ensures (State(), sig) == TakeConfirmed(old(State()))
    {
      sig := confirmedSignal;
      confirmedSignal := None;
    }
  }
}
