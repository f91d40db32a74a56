// The movement-based n-tick confirmation wrapper: a pending buy or sell is
// confirmed once n ticks in a row each move at least `min_pip_move` in its
// direction, measured from the price of the previous favourable tick (from
// the pending entry price to begin with).  Candle handling is the same as
// in the helpers' wrapper; the extra state is the reference price.

module NTickMovement {
  import opened Base
  import opened SignalGeneration

  /** The shared wrapper state plus `_last_tick_price` (None before the first tick). */
  datatype MState = MState(core: NTickState, ref: Value)

  const InitialMState: MState := MState(InitialNTickState, VNone)

  /** The wrapper as constructed with its defaults: three ticks, no minimum move, no spread cap, spread checked after confirmation. */
  const DefaultMovementConfig: NTickConfig := NTickConfig(3, 0.0, None, true)

  /** The price the next movement is measured from: the reference, or the entry price when there is none; None where the subtraction raises. */
  function RefBase(s: MState): Option<real> {
    Num(if s.ref == VNone then s.core.entryPrice else s.ref)
  }

  /** `price` moved at least `minMove` away from `base` in the direction of `pending`. */
  predicate Moves(pending: Value, minMove: real, base: real, price: real) {
    if pending == VStr("buy") then price - base >= minMove
    else price - base <= -minMove
  }

  /** The buffered confirmation: the last base signal, with the side, the reason and the confirming price. */
  function Confirmation(cfg: NTickConfig, s: NTickState, price: real): (d: SignalDict)
    ensures "final_signal" in d && d["final_signal"] == s.pending
    ensures "entry_price" in d && d["entry_price"] == VReal(price)
    ensures forall k :: k in s.lastSignal.GetOr(map[]) && k !in {"final_signal", "reason", "entry_price"} ==>
              k in d && d[k] == s.lastSignal.GetOr(map[])[k]
  {
    s.lastSignal.GetOr(map[])["final_signal" := s.pending]
      ["reason" := VStr(IntToString(cfg.n) + "_consecutive_favorable_ticks")]["entry_price" := VReal(price)]
  }

  /**
   * With `clearRef`, the reference is dropped whenever the tick results
   * are empty, so that every confirmation run starts from the entry price.
   * Without it the state is left as it is.
   */
  function Settle(s: MState, clearRef: bool): (r: MState)
    ensures r.core == s.core
    ensures clearRef && s.core.results == [] ==> r.ref == VNone
    ensures !clearRef || s.core.results != [] ==> r == s
  {
    if clearRef && s.core.results == [] then s.(ref := VNone) else s
  }

  /**
   * `on_new_tick` with the result flag of the call (true where the
   * subtraction from a missing or non-numeric reference raises; the
   * reference has then already been taken from the entry price).
   * `clearRef == false` is the code as written; `clearRef == true` also
   * forgets the reference whenever the tick results are emptied.
   */
  function MoveStep(cfg: NTickConfig, s: MState, price: real, spread: Option<real>, clearRef: bool): (r: (MState, bool))
    ensures !s.core.waiting || !Directional(s.core.pending) ==> r == (s, false)
    ensures r.1 <==> s.core.waiting && Directional(s.core.pending) && RefBase(s).None? &&
                     !(!cfg.liquidityCheckAfterNTick && cfg.maxSpreadPoints.Some? && spread.Some? &&
                       spread.value > cfg.maxSpreadPoints.value)
    ensures r.0.core.lastCandleId == s.core.lastCandleId
    ensures s.core.waiting && Directional(s.core.pending) && RefBase(s).Some? && !r.1 &&
            !(!cfg.liquidityCheckAfterNTick && cfg.maxSpreadPoints.Some? && spread.Some? &&
              spread.value > cfg.maxSpreadPoints.value) ==>
              (Moves(s.core.pending, cfg.minPipMove, RefBase(s).value, price) ==>
                 (|s.core.results| + 1 == cfg.n ==>
                    r.0.core == ResetState(s.core.(confirmed := Some(Confirmation(cfg, s.core, price))))) &&
                 (|s.core.results| + 1 != cfg.n ==>
                    r.0.core == s.core.(results := s.core.results + [true]) && r.0.ref == VReal(price))) &&
              (!Moves(s.core.pending, cfg.minPipMove, RefBase(s).value, price) ==> r.0.core == s.core.(results := []))
  {
    if !s.core.waiting || !Directional(s.core.pending) then (s, false)
    else if !cfg.liquidityCheckAfterNTick && cfg.maxSpreadPoints.Some? && spread.Some? &&
            spread.value > cfg.maxSpreadPoints.value then
      (Settle(MState(s.core.(results := []), VNone), clearRef), false)
    else
      var ref := if s.ref == VNone then s.core.entryPrice else s.ref;
      match Num(ref)
      case None => (MState(s.core, ref), true)
      case Some(base) =>
        if Moves(s.core.pending, cfg.minPipMove, base, price) then
          var results := s.core.results + [true];
          if |results| == cfg.n then
            (Settle(MState(ResetState(s.core.(confirmed := Some(Confirmation(cfg, s.core, price)))), VReal(price)), clearRef), false)
          else (MState(s.core.(results := results), VReal(price)), false)
        else (Settle(MState(s.core.(results := []), s.core.entryPrice), clearRef), false)
  }

  /** `generate_signal`: the shared candle step; the reference is not touched (unless `clearRef` drops it with the results). */
  function GenerateMove(cfg: NTickConfig, s: MState, candles: seq<Record>, signal: SignalDict, clearRef: bool): (r: Try<(MState, SignalDict)>)
    ensures r.Raised? <==> GenerateStep(cfg, s.core, candles, signal).Raised?
    ensures r.Ok? ==> r.value.0.core == GenerateStep(cfg, s.core, candles, signal).value.0 &&
                      r.value.1 == GenerateStep(cfg, s.core, candles, signal).value.1
    ensures r.Ok? && !clearRef ==> r.value.0.ref == s.ref
  {
    match GenerateStep(cfg, s.core, candles, signal)
    case Raised => Raised
    case Ok((core, out)) => Ok((Settle(MState(core, s.ref), clearRef), out))
  }

  // ---------------------------------------------------------------------
  // Properties
  // ---------------------------------------------------------------------

  /**
   * The tick results only ever hold favourable ticks, and (for n >= 1)
   * fewer than n of them: the n-th one confirms and resets.
   */
  predicate ResultsInvariant(cfg: NTickConfig, s: MState) {
    AllTrue(s.core.results) && (cfg.n >= 1 ==> |s.core.results| < cfg.n)
  }

  lemma MoveStepKeepsResultsInvariant(cfg: NTickConfig, s: MState, price: real, spread: Option<real>, clearRef: bool)
    requires ResultsInvariant(cfg, s)
    ensures ResultsInvariant(cfg, MoveStep(cfg, s, price, spread, clearRef).0)
  {
    var r := MoveStep(cfg, s, price, spread, clearRef).0;
    if r.core.results != s.core.results && r.core.results != [] {
      assert r.core.results == s.core.results + [true];
      assert AllTrue(r.core.results) by {
        forall i | 0 <= i < |r.core.results| ensures r.core.results[i] {
          if i < |s.core.results| {
            assert r.core.results[i] == s.core.results[i];
          }
        }
      }
    }
  }

  /** With n <= 0 the results only grow and nothing is ever confirmed by a tick. */
  lemma NonPositiveWindowNeverConfirms(cfg: NTickConfig, s: MState, price: real, spread: Option<real>, clearRef: bool)
    requires cfg.n <= 0 && s.core.confirmed.None?
    ensures MoveStep(cfg, s, price, spread, clearRef).0.core.confirmed.None?
  {
    assert |s.core.results| + 1 != cfg.n;
  }

  /** The ticks after a state, one at a time, with no spread reported; stops at the first that raises. */
  function RunMoves(cfg: NTickConfig, s: MState, prices: seq<real>, clearRef: bool): Try<MState>
    decreases |prices|
  {
    if prices == [] then Ok(s)
    else
      var (s1, raised) := MoveStep(cfg, s, prices[0], None, clearRef);
      if raised then Raised else RunMoves(cfg, s1, prices[1..], clearRef)
  }

  /** Every price moved at least `minMove` in the pending direction from the one before, the first from `base`. */
  predicate MovingRun(pending: Value, minMove: real, base: real, prices: seq<real>) {
    |prices| >= 1 && Moves(pending, minMove, base, prices[0]) &&
    forall i :: 0 <= i < |prices| - 1 ==> Moves(pending, minMove, prices[i], prices[i + 1])
  }

  /**
   * n ticks in a row, each moving at least `min_pip_move` in the pending
   * direction from the previous one (the first from the entry price),
   * confirm the pending side at the last tick's price and end the wait.
   */
  lemma NFavorableMovesConfirm(cfg: NTickConfig, s: MState, prices: seq<real>, clearRef: bool)
    requires cfg.n >= 1 && |prices| == cfg.n
    requires s.core.waiting && Directional(s.core.pending) && s.core.results == [] && RefBase(s).Some?
    requires MovingRun(s.core.pending, cfg.minPipMove, RefBase(s).value, prices)
    ensures var r := RunMoves(cfg, s, prices, clearRef);
            r.Ok? && !r.value.core.waiting && r.value.core.confirmed.Some? &&
            "final_signal" in r.value.core.confirmed.value &&
            r.value.core.confirmed.value["final_signal"] == s.core.pending &&
            "entry_price" in r.value.core.confirmed.value &&
            r.value.core.confirmed.value["entry_price"] == VReal(prices[|prices| - 1])
  {
    ConfirmMoves(cfg, s, prices, 0, clearRef);
  }

  lemma {:induction false} ConfirmMoves(cfg: NTickConfig, s: MState, prices: seq<real>, k: nat, clearRef: bool)
    requires cfg.n >= 1 && k + |prices| == cfg.n
    requires s.core.waiting && Directional(s.core.pending) && |s.core.results| == k && RefBase(s).Some?
    requires MovingRun(s.core.pending, cfg.minPipMove, RefBase(s).value, prices)
    ensures var r := RunMoves(cfg, s, prices, clearRef);
            r.Ok? && !r.value.core.waiting && r.value.core.confirmed.Some? &&
            "final_signal" in r.value.core.confirmed.value &&
            r.value.core.confirmed.value["final_signal"] == s.core.pending &&
            "entry_price" in r.value.core.confirmed.value &&
            r.value.core.confirmed.value["entry_price"] == VReal(prices[|prices| - 1])
    decreases |prices|
  {
    var (s1, raised) := MoveStep(cfg, s, prices[0], None, clearRef);
    assert !raised;
    if |prices| == 1 {
      assert prices[1..] == [];
      assert RunMoves(cfg, s, prices, clearRef) == Ok(s1);
    } else {
      assert s1 == MState(s.core.(results := s.core.results + [true]), VReal(prices[0]));
      assert RefBase(s1) == Some(prices[0]);
      var rest := prices[1..];
      assert MovingRun(s1.core.pending, cfg.minPipMove, prices[0], rest) by {
        forall i | 0 <= i < |rest| - 1
          ensures Moves(s1.core.pending, cfg.minPipMove, rest[i], rest[i + 1])
        {
          assert rest[i] == prices[i + 1] && rest[i + 1] == prices[i + 2];
        }
      }
      ConfirmMoves(cfg, s1, rest, k + 1, clearRef);
      assert rest[|rest| - 1] == prices[|prices| - 1];
    }
  }

  /** An unfavourable tick starts the count again, measured from the entry price. */
  lemma UnfavorableTickRestarts(cfg: NTickConfig, s: MState, price: real, clearRef: bool)
    requires s.core.waiting && Directional(s.core.pending) && RefBase(s).Some?
    requires !Moves(s.core.pending, cfg.minPipMove, RefBase(s).value, price)
    ensures var r := MoveStep(cfg, s, price, None, clearRef).0;
            r.core.results == [] && r.core.waiting && RefBase(r) == Num(s.core.entryPrice)
  {
  }

  /**
   * Unlike the helpers' wrapper, this one never trades against the
   * pending side: a run of ticks that each fail to move away from the
   * entry price confirms nothing, however long it is, and leaves the wait
   * on with no tick counted.
   */
  lemma {:induction false} UnfavorableTicksNeverConfirm(cfg: NTickConfig, s: MState, prices: seq<real>, clearRef: bool)
    requires s.core.waiting && Directional(s.core.pending) && s.core.results == []
    requires Num(s.core.entryPrice).Some? && RefBase(s) == Num(s.core.entryPrice)
    requires forall i :: 0 <= i < |prices| ==> !Moves(s.core.pending, cfg.minPipMove, Num(s.core.entryPrice).value, prices[i])
    ensures var r := RunMoves(cfg, s, prices, clearRef);
            r.Ok? && r.value.core.confirmed == s.core.confirmed && r.value.core.waiting && r.value.core.results == []
    decreases |prices|
  {
    if prices != [] {
      var s1 := MoveStep(cfg, s, prices[0], None, clearRef).0;
      assert s1.core == s.core.(results := []);
      assert RefBase(s1) == Num(s.core.entryPrice);
      assert forall i :: 0 <= i < |prices[1..]| ==> prices[1..][i] == prices[i + 1];
      UnfavorableTicksNeverConfirm(cfg, s1, prices[1..], clearRef);
    }
  }

  // ---------------------------------------------------------------------
  // The reference price outlives the confirmation run
  // ---------------------------------------------------------------------

  /**
   * A run starts from the entry price exactly when nothing is left over
   * from an earlier one: with no favourable tick counted, the reference is
   * absent (or is the entry price itself).
   */
  predicate FreshReference(s: MState) {
    s.core.results == [] ==> s.ref == VNone || s.ref == s.core.entryPrice
  }

  // The scenario of the stale-reference finding: two ticks needed, a
  // minimum move of 0.1, no spread cap.
  const StaleCfg: NTickConfig := NTickConfig(2, 0.1, None, true)
  const BuySignal: SignalDict := map["final_signal" := VStr("buy")]
  const SellSignal: SignalDict := map["final_signal" := VStr("sell")]
  const FirstCandles: seq<Record> := [Dict(map["close" := VReal(1.0), "time" := VInt(60)])]
  const SecondCandles: seq<Record> := [Dict(map["close" := VReal(1.2), "time" := VInt(120)])]
  /** A buy pending from a close of 1.0, no tick seen yet. */
  const PendingBuy: MState := MState(NTickState(VStr("buy"), VReal(1.0), [], true, Some(BuySignal), VInt(60), None), VNone)
  /** The same after one favourable tick at 1.5. */
  const AfterFavourableTick: MState :=
    MState(NTickState(VStr("buy"), VReal(1.0), [true], true, Some(BuySignal), VInt(60), None), VReal(1.5))
  /** A sell pending from a close of 1.2 that still carries the reference 1.5. */
  const PendingSellStale: MState :=
    MState(NTickState(VStr("sell"), VReal(1.2), [], true, Some(SellSignal), VInt(120), None), VReal(1.5))

  lemma StaleScenarioFirstCandle()
    ensures GenerateMove(StaleCfg, InitialMState, FirstCandles, BuySignal, false).Ok?
    ensures GenerateMove(StaleCfg, InitialMState, FirstCandles, BuySignal, false).value.0 == PendingBuy
  {
    assert LastCandleFields(FirstCandles) == Ok((VReal(1.0), VInt(60))) by {
      assert "close" in Last(FirstCandles).entries;
    }
  }

  lemma StaleScenarioFirstTick()
    ensures MoveStep(StaleCfg, PendingBuy, 1.5, None, false).0 == AfterFavourableTick
  {
    assert RefBase(PendingBuy) == Some(1.0);
  }

  lemma StaleScenarioSecondCandle()
    ensures GenerateMove(StaleCfg, AfterFavourableTick, SecondCandles, SellSignal, false).Ok?
    ensures GenerateMove(StaleCfg, AfterFavourableTick, SecondCandles, SellSignal, false).value.0 == PendingSellStale
  {
    assert LastCandleFields(SecondCandles) == Ok((VReal(1.2), VInt(120))) by {
      assert "close" in Last(SecondCandles).entries;
    }
  }

  lemma StaleScenarioUnmovedTick()
    ensures MoveStep(StaleCfg, PendingSellStale, 1.2, None, false).0.core.results == [true]
  {
    assert RefBase(PendingSellStale) == Some(1.5);
  }

  /**
   * As written, `_reset` keeps `_last_tick_price`: after a favourable tick
   * at 1.5 a new candle with a sell signal and a close of 1.2 starts a
   * pending sell whose first tick is measured from 1.5, so a tick at 1.2,
   * which has not moved from the entry price at all, counts as favourable.
   */
  lemma StaleReferenceCountsUnmovedTick()
    ensures var g1 := GenerateMove(StaleCfg, InitialMState, FirstCandles, BuySignal, false);
            g1.Ok? &&
            var t1 := MoveStep(StaleCfg, g1.value.0, 1.5, None, false);
            var g2 := GenerateMove(StaleCfg, t1.0, SecondCandles, SellSignal, false);
            g2.Ok? && g2.value.0.core.pending == VStr("sell") && g2.value.0.core.entryPrice == VReal(1.2) &&
            !FreshReference(g2.value.0) &&
            MoveStep(StaleCfg, g2.value.0, 1.2, None, false).0.core.results == [true]
  {
    StaleScenarioFirstCandle();
    StaleScenarioFirstTick();
    StaleScenarioSecondCandle();
    StaleScenarioUnmovedTick();
  }

  /**
   * With the reference dropped together with the tick results, every state
   * the wrapper reaches starts its runs from the entry price.
   */
  lemma CorrectedMoveKeepsFreshReference(cfg: NTickConfig, s: MState, price: real, spread: Option<real>)
    requires FreshReference(s)
    ensures FreshReference(MoveStep(cfg, s, price, spread, true).0)
  {
  }

  lemma CorrectedGenerateKeepsFreshReference(cfg: NTickConfig, s: MState, candles: seq<Record>, signal: SignalDict)
    requires FreshReference(s)
    ensures var r := GenerateMove(cfg, s, candles, signal, true);
            r.Ok? ==> FreshReference(r.value.0)
  {
  }

  /** In a fresh state the first tick of a run is measured from the entry price. */
  lemma FreshRunStartsAtEntry(s: MState)
    requires FreshReference(s) && s.core.results == []
    ensures RefBase(s) == Num(s.core.entryPrice)
  {
  }

  // ---------------------------------------------------------------------
  // The wrapper object
  // ---------------------------------------------------------------------

  /** `NTickConfirmedSignalStrategy` of the signal strategies, as written. */
  class NTickMovementConfirmation {
    const cfg: NTickConfig
    var pending: Value
    var entryPrice: Value
    var tickResults: seq<bool>
    var waiting: bool
    var lastSignal: Option<SignalDict>
    var lastCandleId: Value
    var confirmedSignal: Option<SignalDict>
    var lastTickPrice: Value

    function State(): MState
      reads this
    {
      MState(NTickState(pending, entryPrice, tickResults, waiting, lastSignal, lastCandleId, confirmedSignal), lastTickPrice)
    }

    constructor(cfg: NTickConfig)
      ensures this.cfg == cfg && State() == InitialMState
    {
      this.cfg := cfg;
      pending := VNone;
      entryPrice := VNone;
      tickResults := [];
      waiting := false;
      lastSignal := None;
      lastCandleId := VNone;
      confirmedSignal := None;
      lastTickPrice := VNone;
    }

    /** `_reset`: the reference price is kept. */
    method Reset()
      modifies this
      ensures State() == MState(ResetState(old(State()).core), old(State()).ref)
    {
      pending := VNone;
      entryPrice := VNone;
      tickResults := [];
      waiting := false;
      lastSignal := None;
    }

    /** `on_new_tick`; `raised` where measuring the movement raises. */
    method OnNewTick(price: real, spread: Option<real>) returns (raised: bool)
      modifies this
      ensures (State(), raised) == MoveStep(cfg, old(State()), price, spread, false)
    {
      if !waiting || !Directional(pending) {
        return false;
      }
      if !cfg.liquidityCheckAfterNTick && cfg.maxSpreadPoints.Some? && spread.Some? && spread.value > cfg.maxSpreadPoints.value {
        tickResults := [];
        lastTickPrice := VNone;
        return false;
      }
      if lastTickPrice == VNone {
        lastTickPrice := entryPrice;
      }
      var base := Num(lastTickPrice);
      if base.None? {
        return true;
      }
      if Moves(pending, cfg.minPipMove, base.value, price) {
        tickResults := tickResults + [true];
        lastTickPrice := VReal(price);
        if |tickResults| == cfg.n {
          confirmedSignal := Some(Confirmation(cfg, State().core, price));
          Reset();
        }
      } else {
        tickResults := [];
        lastTickPrice := entryPrice;
      }
      return false;
    }

    /** `generate_signal`, given what the wrapped strategy answered for these candles. */
    method GenerateSignal(candles: seq<Record>, signal: SignalDict) returns (r: Try<SignalDict>)
      modifies this
      ensures GenerateMove(cfg, old(State()), candles, signal, false).Ok? ==>
                r == Ok(GenerateMove(cfg, old(State()), candles, signal, false).value.1) &&
                State() == GenerateMove(cfg, old(State()), candles, signal, false).value.0
      ensures GenerateMove(cfg, old(State()), candles, signal, false).Raised? ==> r.Raised? && State() == old(State())
    {
      if confirmedSignal.Some? {
        var sig := confirmedSignal.value;
        confirmedSignal := None;
        return Ok(sig);
      }
      var raw := if "final_signal" in signal then signal["final_signal"] else VStr("hold");
      var fields := LastCandleFields(candles);
      if fields.Raised? {
        return Raised;
      }
      var (close, candleId) := fields.value;
      ghost var s1 := if candleId != lastCandleId then ResetState(State().core).(lastCandleId := candleId) else State().core;
      if candleId != lastCandleId {
        Reset();
        lastCandleId := candleId;
      }
      assert State() == MState(s1, old(State()).ref);
      ghost var g := GenerateMove(cfg, old(State()), candles, signal, false);
      if Directional(raw) && pending != raw {
        pending, entryPrice, tickResults, waiting, lastSignal := raw, close, [], true, Some(signal);
        r := Ok(signal["final_signal" := VStr("hold")]["reason" := WaitingReason(cfg.n)]);
        assert g == Ok((State(), r.value));
        return;
      }
      if waiting {
        r := Ok(signal["final_signal" := VStr("hold")]["reason" := WaitingReason(cfg.n)]);
        assert g == Ok((State(), r.value));
        return;
      }
      if !Directional(raw) {
        Reset();
      }
      r := Ok(signal["final_signal" := VStr("hold")]["reason" := VStr("waiting_for_tick_confirmation")]);
      assert g == Ok((State(), r.value));
    }

    /** `get_confirmed_signal`: the buffer, emptied. */
    method GetConfirmedSignal() returns (sig: Option<SignalDict>)
      modifies this
      ensures sig == old(State()).core.confirmed
      ensures State() == old(State()).(core := TakeConfirmed(old(State()).core).0)
    {
      sig := confirmedSignal;
      confirmedSignal := None;
    }
  }
}
