// The modular strong-signal strategy: any number of indicator functions
// vote "buy" or "sell" (anything else abstains), and a side wins when it
// has more votes and the share of voting indicators reaches the threshold.

module VoteStrategy {
  import opened Base
  import opened SignalGeneration

  /**
   * `min_candles`, `confidence_threshold`, and `config.SYMBOLS[0]` (None
   * when the strategy has no config, so that reading it raises).
   */
  datatype VoteConfig = VoteConfig(minCandles: int, confidenceThreshold: real, defaultSymbol: Option<string>)

  /** The constructor's settings: `int(min_candles or 1)` candles at least. */
  function MakeVoteConfig(minCandles: Option<int>, confidenceThreshold: real, defaultSymbol: Option<string>): (cfg: VoteConfig)
    ensures cfg.minCandles != 0
    ensures minCandles.None? ==> cfg.minCandles == 1
    ensures minCandles.Some? && minCandles.value != 0 ==> cfg.minCandles == minCandles.value
    ensures cfg.confidenceThreshold == confidenceThreshold && cfg.defaultSymbol == defaultSymbol
  {
    VoteConfig(if minCandles.None? || minCandles.value == 0 then 1 else minCandles.value, confidenceThreshold, defaultSymbol)
  }

  /** An indicator function: its answer for the candles, or None where it raises. */
  type IndicatorFn = seq<Record> -> Option<Value>

  /** The indicators' answers in order, a raising indicator recorded as None. */
  function Results(fns: seq<IndicatorFn>, candles: seq<Record>): (rs: seq<Value>)
    ensures |rs| == |fns|
    ensures forall i :: 0 <= i < |fns| ==> rs[i] == fns[i](candles).GetOr(VNone)
  {
    seq(|fns|, i requires 0 <= i < |fns| => fns[i](candles).GetOr(VNone))
  }

  /** How many answers equal the string `side`. */
  function Votes(rs: seq<Value>, side: string): nat {
    if rs == [] then 0
    else (if rs[0] == VStr(side) then 1 else 0) + Votes(rs[1..], side)
  }

  /** Buy and sell votes together never outnumber the answers. */
  lemma {:induction false} VotesBounded(rs: seq<Value>)
    ensures Votes(rs, "buy") + Votes(rs, "sell") <= |rs|
  {
    if rs != [] {
      VotesBounded(rs[1..]);
    }
  }

  /** `total_votes / max(1, len(indicators))`. */
  function VoteConfidence(rs: seq<Value>): (c: real)
    ensures 0.0 <= c <= 1.0
  {
    VotesBounded(rs);
    var total := Votes(rs, "buy") + Votes(rs, "sell");
    var n := if |rs| > 1 then |rs| else 1;
    RatioAtMostOne(total, n);
    total as real / n as real
  }

  lemma RatioAtMostOne(a: nat, b: nat)
    requires 0 < b && a <= b
    ensures 0.0 <= a as real / b as real <= 1.0
  {
  }

  /** The vote: a strict majority of one side whose confidence reaches the threshold wins; anything else holds. */
  function Decide(rs: seq<Value>, threshold: real): (l: Label)
    ensures l == LBuy <==> Votes(rs, "buy") > Votes(rs, "sell") && VoteConfidence(rs) >= threshold
    ensures l == LSell <==> Votes(rs, "sell") > Votes(rs, "buy") && VoteConfidence(rs) >= threshold
  {
    var buy := Votes(rs, "buy");
    var sell := Votes(rs, "sell");
    if buy > sell && VoteConfidence(rs) >= threshold then LBuy
    else if sell > buy && VoteConfidence(rs) >= threshold then LSell
    else LHold
  }

  /** `_resolve_symbol`: the last dict candle's truthy symbol, else `config.SYMBOLS[0]`; None where that raises. */
  function VoteSymbol(cfg: VoteConfig, candles: seq<Record>): (v: Option<Value>)
    ensures candles != [] && Truthy(Field(Last(candles), "symbol")) ==> v == Some(Field(Last(candles), "symbol"))
    ensures !(candles != [] && Truthy(Field(Last(candles), "symbol"))) ==>
              v == (if cfg.defaultSymbol.Some? then Some(VStr(cfg.defaultSymbol.value)) else None)
  {
    if candles != [] && Truthy(Field(Last(candles), "symbol")) then Some(Field(Last(candles), "symbol"))
    else if cfg.defaultSymbol.Some? then Some(VStr(cfg.defaultSymbol.value))
    else None
  }

  /**
   * `StrongSignalStrategy.generate_signal` of the signal strategies. The
   * symbol is resolved first (which raises without a config); too few
   * candles give the error dict; otherwise the vote decides, and the final
   * signal is the raw one. Entry filters are accepted and ignored.
   */
  function VoteGenerate(cfg: VoteConfig, fns: seq<IndicatorFn>, candles: seq<Record>, applyFilters: bool): (r: Try<Signal>)
    ensures r.Raised? <==> VoteSymbol(cfg, candles).None?
    ensures cfg.defaultSymbol.Some? ==> r.Ok?
    ensures r.Ok? && (candles == [] || |candles| < cfg.minCandles) ==>
              r.value == SignalError("Not enough data for calculations")
    ensures r.Ok? ==> r.value.SignalError? || r.value.Decided?
    ensures r.Ok? && r.value.Decided? ==>
              candles != [] && |candles| >= cfg.minCandles &&
              var rs := Results(fns, candles);
              r.value.symbol == VoteSymbol(cfg, candles).value &&
              r.value.final == r.value.raw &&
              r.value.confidence == VoteConfidence(rs) && 0.0 <= r.value.confidence <= 1.0 &&
              (r.value.raw == LBuy <==> Votes(rs, "buy") > Votes(rs, "sell") && r.value.confidence >= cfg.confidenceThreshold) &&
              (r.value.raw == LSell <==> Votes(rs, "sell") > Votes(rs, "buy") && r.value.confidence >= cfg.confidenceThreshold)
    // Conversely: a resolved symbol and enough candles always give the vote's decision.
    ensures VoteSymbol(cfg, candles).Some? && candles != [] && |candles| >= cfg.minCandles ==>
              r.Ok? && r.value.Decided? && r.value.raw == Decide(Results(fns, candles), cfg.confidenceThreshold)
  {
    match VoteSymbol(cfg, candles)
    case None => Raised
    case Some(symbol) =>
      if candles == [] || |candles| < cfg.minCandles then Ok(SignalError("Not enough data for calculations"))
      else
        var rs := Results(fns, candles);
        var raw := Decide(rs, cfg.confidenceThreshold);
        Ok(Decided(symbol, raw, raw, VoteConfidence(rs), NotApplied))
  }

  // ---------------------------------------------------------------------
  // Properties
  // ---------------------------------------------------------------------

  /** The other side's vote: "buy" and "sell" swap, every other answer stays. */
  function Mirror(v: Value): (m: Value)
    ensures v == VStr("buy") <==> m == VStr("sell")
    ensures v == VStr("sell") <==> m == VStr("buy")
    ensures v != VStr("buy") && v != VStr("sell") ==> m == v
  {
    if v == VStr("buy") then VStr("sell") else if v == VStr("sell") then VStr("buy") else v
  }

  function MirrorAll(rs: seq<Value>): (ms: seq<Value>)
    ensures |ms| == |rs| && forall i :: 0 <= i < |rs| ==> ms[i] == Mirror(rs[i])
  {
    seq(|rs|, i requires 0 <= i < |rs| => Mirror(rs[i]))
  }

  lemma {:induction false} MirrorSwapsVotes(rs: seq<Value>)
    ensures Votes(MirrorAll(rs), "buy") == Votes(rs, "sell")
    ensures Votes(MirrorAll(rs), "sell") == Votes(rs, "buy")
  {
    if rs != [] {
      MirrorSwapsVotes(rs[1..]);
      assert MirrorAll(rs)[1..] == MirrorAll(rs[1..]);
    }
  }

  function SwapLabel(l: Label): Label {
    match l
    case LBuy => LSell
    case LSell => LBuy
    case LHold => LHold
  }

  /** The rule favours neither side: mirrored answers give the mirrored decision with the same confidence. */
  lemma MirroredVoteMirrorsDecision(rs: seq<Value>, threshold: real)
    ensures VoteConfidence(MirrorAll(rs)) == VoteConfidence(rs)
    ensures Decide(MirrorAll(rs), threshold) == SwapLabel(Decide(rs, threshold))
  {
    MirrorSwapsVotes(rs);
  }

  /** An answer that is neither "buy" nor "sell" (None included) is no vote. */
  lemma {:induction false} AbstentionsCastNoVotes(rs: seq<Value>)
    requires forall i :: 0 <= i < |rs| ==> rs[i] != VStr("buy") && rs[i] != VStr("sell")
    ensures Votes(rs, "buy") == 0 && Votes(rs, "sell") == 0
  {
    if rs != [] {
      AbstentionsCastNoVotes(rs[1..]);
    }
  }

  /**
   * Raising indicators do not abort the strategy: when every indicator
   * raises the answer is a hold with confidence 0 (for a positive
   * threshold), not an error.
   */
  lemma AllIndicatorsRaisingHolds(cfg: VoteConfig, fns: seq<IndicatorFn>, candles: seq<Record>, applyFilters: bool)
    requires cfg.defaultSymbol.Some? && candles != [] && |candles| >= cfg.minCandles
    requires cfg.confidenceThreshold > 0.0
    requires forall i :: 0 <= i < |fns| ==> fns[i](candles).None?
    ensures var r := VoteGenerate(cfg, fns, candles, applyFilters);
            r.Ok? && r.value.Decided? && r.value.raw == LHold && r.value.confidence == 0.0
  {
    AbstentionsCastNoVotes(Results(fns, candles));
  }

  /** A tie never trades, whatever the threshold. */
  lemma TieHolds(rs: seq<Value>, threshold: real)
    requires Votes(rs, "buy") == Votes(rs, "sell")
    ensures Decide(rs, threshold) == LHold
  {
  }

  /** The vote strategy as the base of the multi-timeframe gate. */
  function VoteBase(cfg: VoteConfig, fns: seq<IndicatorFn>): (base: (seq<Record>, bool) -> Try<Signal>)
    ensures forall cs, f :: base(cs, f) == VoteGenerate(cfg, fns, cs, f)
  {
    (cs: seq<Record>, f: bool) => VoteGenerate(cfg, fns, cs, f)
  }

  /**
   * The multi-timeframe gate over the vote strategy with a config raises
   * only in the pullback arithmetic; without one it raises whenever it
   * needs the configured symbol.
   */
  lemma VoteMultiRaisesOnlyInPullback(cfg: VoteConfig, fns: seq<IndicatorFn>, m: MultiConfig,
                                      pairs: seq<(TfKey, Option<seq<Record>>)>)
    requires cfg.defaultSymbol.Some?
    ensures var ce := TfCandles(pairs, m.tfEntry);
            MultiGenerate(cfg.defaultSymbol, m, pairs, VoteBase(cfg, fns)).Raised? ==>
              ce != [] && Pullback(ce).Raised?
  {
    var base := VoteBase(cfg, fns);
    assert SubSignal(base, TfCandles(pairs, m.tfBias), false).Ok?;
    assert SubSignal(base, TfCandles(pairs, m.tfConfirm), false).Ok?;
    assert SubSignal(base, TfCandles(pairs, m.tfEntry), true).Ok?;
  }
}
