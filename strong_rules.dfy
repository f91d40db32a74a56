// The two stand-alone strong-signal rules: the dependency-injected one of
// the service helpers and the older one of the strategies package.  Both
// combine an SMA label with the last MACD and signal-line values into a
// confidence and a buy/sell/hold decision, and turn every failure into an
// error dictionary.

module StrongRules {
  import opened Base
  import opened SignalGeneration

  /** The error dictionaries: the fixed messages, and `str(e)` of an unexpected exception. */
  datatype RuleError = NotEnoughData | SmaFailed | MacdFailed | RsiFailed | RsiInvalid | Unexpected

  /** `{"error": ...}`, or `{"final_signal": ..., "confidence": ...}` and nothing else. */
  datatype RuleResult = RuleErr(error: RuleError) | RuleDecision(final: Label, confidence: real)

  /**
   * What the SMA, MACD and RSI functions produce for the candles: the SMA
   * label, the MACD and signal lines (reading them raises when the MACD
   * result is not a mapping), and the RSI values (None when it fails).
   */
  datatype Outputs = Outputs(sma: Try<Value>, macd: Try<(seq<real>, seq<real>)>, rsi: Try<Option<seq<Value>>>)

  /** The outputs as the helpers' strategy sees them once none of the functions raised. */
  function AsIndicators(out: Outputs): Indicators
    requires out.sma.Ok? && out.macd.Ok? && out.rsi.Ok?
  {
    Indicators(out.sma.value, out.macd.value.0, out.macd.value.1, out.rsi.value)
  }

  // ---------------------------------------------------------------------
  // The helpers' rule
  // ---------------------------------------------------------------------

  /**
   * `StrongSignalStrategy.generate_signal` of the service helpers: too few
   * candles, an SMA of None, a missing MACD line, missing RSI values or an
   * unreadable last RSI value each give their error; an indicator function
   * that raises gives the unexpected-error dictionary; otherwise the SMA
   * and MACD trends decide.
   */
  function HelperRule(minCandles: int, threshold: real, candles: seq<Record>, out: Outputs): (r: RuleResult)
    ensures candles == [] || |candles| < minCandles ==> r == RuleErr(NotEnoughData)
    ensures r.RuleDecision? ==>
              out.sma.Ok? && out.macd.Ok? && out.rsi.Ok? && Usable(AsIndicators(out)) &&
              r.confidence == Confidence(AsIndicators(out)) && r.confidence >= 0.0 &&
              var ind := AsIndicators(out);
              var macd := MacdTrend(Last(ind.macdLine), Last(ind.signalLine));
              (r.final == LBuy <==> SmaTrend(ind.sma) == Bullish && macd == Bullish && r.confidence >= threshold) &&
              (r.final == LSell <==> SmaTrend(ind.sma) == Bearish && macd == Bearish && r.confidence >= threshold)
    ensures out.sma.Ok? && out.macd.Ok? && out.rsi.Ok? && candles != [] && |candles| >= minCandles ==>
              (r.RuleDecision? <==> Usable(AsIndicators(out)))
    ensures out.sma == Ok(VNone) && candles != [] && |candles| >= minCandles ==> r == RuleErr(SmaFailed)
  {
    if candles == [] || |candles| < minCandles then RuleErr(NotEnoughData)
    else match out.sma
      case Raised => RuleErr(Unexpected)
      case Ok(sma) =>
        if sma == VNone then RuleErr(SmaFailed)
        else match out.macd
          case Raised => RuleErr(Unexpected)
          case Ok((macdLine, signalLine)) =>
            if macdLine == [] || signalLine == [] then RuleErr(MacdFailed)
            else match out.rsi
              case Raised => RuleErr(Unexpected)
              case Ok(rsi) =>
                if rsi.None? || rsi.value == [] then RuleErr(RsiFailed)
                else if FloatOf(Last(rsi.value)).None? then RuleErr(RsiInvalid)
                else
                  var ind := Indicators(sma, macdLine, signalLine, rsi);
                  RuleDecision(RawDecision(ind, threshold), Confidence(ind))
  }

  /** The RSI only has to be readable: two readable RSI series give the same decision. */
  lemma HelperRuleIgnoresRsi(minCandles: int, threshold: real, candles: seq<Record>, out: Outputs, rsi2: seq<Value>)
    requires out.rsi.Ok? && out.rsi.value.Some? && out.rsi.value.value != [] && FloatOf(Last(out.rsi.value.value)).Some?
    requires rsi2 != [] && FloatOf(Last(rsi2)).Some?
    ensures HelperRule(minCandles, threshold, candles, out) ==
            HelperRule(minCandles, threshold, candles, out.(rsi := Ok(Some(rsi2))))
  {
  }

  /**
   * At a threshold of at most one half, SMA and MACD agreeing is enough:
   * the SMA alone contributes a confidence of 0.5.
   */
  lemma AgreementSufficesAtHalf(minCandles: int, threshold: real, candles: seq<Record>, out: Outputs)
    requires threshold <= 0.5
    requires candles != [] && |candles| >= minCandles
    requires out.sma == Ok(VStr("buy")) && out.macd.Ok? && out.rsi.Ok?
    requires Usable(AsIndicators(out))
    requires Last(out.macd.value.0) > Last(out.macd.value.1)
    ensures HelperRule(minCandles, threshold, candles, out) == RuleDecision(LBuy, Confidence(AsIndicators(out)))
  {
    var ind := AsIndicators(out);
    HalfPlusNonNegative(Abs(Last(ind.macdLine) - Last(ind.signalLine)));
  }

  lemma HalfPlusNonNegative(x: real)
    requires x >= 0.0
    ensures (1.0 + x) / 2.0 >= 0.5
  {
  }

  // ---------------------------------------------------------------------
  // The older rule
  // ---------------------------------------------------------------------

  /** The older rule's fixed minimum. */
  const OlderMinCandles: int := 200

  /** `[item["close"] for item in candles ...]` does not raise: every candle is a dict with a close. */
  predicate ClosesReadable(candles: seq<Record>) {
    forall i :: 0 <= i < |candles| ==> candles[i].Dict? && "close" in candles[i].entries
  }

  /** `latest_rsi < 30` compares without raising. */
  predicate RsiComparable(rsi: Option<seq<Value>>) {
    rsi.Some? && rsi.value != [] && RawNumber(Last(rsi.value)).Parsed?
  }

  /**
   * `StrongSignalStrategy.generate_signal` of the strategies package: fewer
   * than 200 candles, a falsy SMA label or a missing MACD line give their
   * error; anything that raises on the way (a candle without a close, RSI
   * values that are missing or do not compare) gives the unexpected-error
   * dictionary; otherwise the same SMA and MACD rule decides.
   */
  function OlderRule(threshold: real, candles: seq<Record>, out: Outputs): (r: RuleResult)
    ensures |candles| < OlderMinCandles ==> r == RuleErr(NotEnoughData)
    ensures out.sma.Ok? && !Truthy(out.sma.value) && |candles| >= OlderMinCandles ==> r == RuleErr(SmaFailed)
    ensures r.RuleDecision? ==>
              |candles| >= OlderMinCandles && ClosesReadable(candles) &&
              out.sma.Ok? && Truthy(out.sma.value) && out.macd.Ok? && out.rsi.Ok? && RsiComparable(out.rsi.value) &&
              out.macd.value.0 != [] && out.macd.value.1 != [] &&
              r.confidence == Confidence(AsIndicators(out)) &&
              r.final == RawDecision(AsIndicators(out), threshold)
    ensures r.RuleErr? && r.error != NotEnoughData && r.error != SmaFailed && r.error != MacdFailed ==> r.error == Unexpected
    // Conversely: when every guard passes and nothing raises, the rule decides.
    ensures (|candles| >= OlderMinCandles && ClosesReadable(candles) &&
             out.sma.Ok? && Truthy(out.sma.value) && out.macd.Ok? && out.macd.value.0 != [] && out.macd.value.1 != [] &&
             out.rsi.Ok? && RsiComparable(out.rsi.value)) ==> r.RuleDecision?
    ensures r == RuleErr(MacdFailed) <==>
              |candles| >= OlderMinCandles && out.sma.Ok? && Truthy(out.sma.value) && out.macd.Ok? &&
              (out.macd.value.0 == [] || out.macd.value.1 == [])
  {
    if |candles| < OlderMinCandles then RuleErr(NotEnoughData)
    else match out.sma
      case Raised => RuleErr(Unexpected)
      case Ok(sma) =>
        if !Truthy(sma) then RuleErr(SmaFailed)
        else match out.macd
          case Raised => RuleErr(Unexpected)
          case Ok((macdLine, signalLine)) =>
            if macdLine == [] || signalLine == [] then RuleErr(MacdFailed)
            else if !ClosesReadable(candles) then RuleErr(Unexpected)
            else match out.rsi
              case Raised => RuleErr(Unexpected)
              case Ok(rsi) =>
                if !RsiComparable(rsi) then RuleErr(Unexpected)
                else
                  var ind := Indicators(sma, macdLine, signalLine, rsi);
                  RuleDecision(RawDecision(ind, threshold), Confidence(ind))
  }

  /**
   * The two rules decide alike: whenever both reach a decision on the same
   * candles and indicator outputs, it is the same decision with the same
   * confidence.
   */
  lemma OlderAndHelperAgree(minCandles: int, threshold: real, candles: seq<Record>, out: Outputs)
    requires OlderRule(threshold, candles, out).RuleDecision?
    requires HelperRule(minCandles, threshold, candles, out).RuleDecision?
    ensures OlderRule(threshold, candles, out) == HelperRule(minCandles, threshold, candles, out)
  {
  }

  /**
   * Where the older rule decides, the helpers' rule (with a minimum of at
   * most 200) decides too unless the last RSI value is a number `float()`
   * refuses, which cannot happen: every comparable value converts.
   */
  lemma OlderDecisionImpliesHelperDecision(minCandles: int, threshold: real, candles: seq<Record>, out: Outputs)
    requires minCandles <= OlderMinCandles
    requires OlderRule(threshold, candles, out).RuleDecision?
    ensures HelperRule(minCandles, threshold, candles, out) == OlderRule(threshold, candles, out)
  {
    var v := Last(out.rsi.value.value);
    assert FloatOf(v).Some? by {
      ComparableConverts(v);
    }
  }

  lemma ComparableConverts(v: Value)
    requires RawNumber(v).Parsed?
    ensures FloatOf(v).Some?
  {
  }

  /** A falsy SMA label that is not None (an empty string, say) is an error in the older rule but only a neutral trend in the helpers' rule. */
  lemma FalsySmaSplitsTheRules(threshold: real, candles: seq<Record>, out: Outputs)
    requires |candles| >= OlderMinCandles && ClosesReadable(candles)
    requires out.sma == Ok(VStr("")) && out.macd.Ok? && out.rsi.Ok? && Usable(AsIndicators(out))
    ensures OlderRule(threshold, candles, out) == RuleErr(SmaFailed)
    ensures HelperRule(OlderMinCandles, threshold, candles, out).RuleDecision?
    ensures HelperRule(OlderMinCandles, threshold, candles, out).final == LHold
  {
  }
}
