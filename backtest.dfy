// The signal backtest: a strategy is run over a sliding window of candles,
// and each candle from `min_window` on gets one result row built from the
// window of candles strictly before it.
//
// Indexing and slicing follow Python's rules, negative positions included,
// so that a negative `min_window` is modelled as the code would run it.

module Backtest {
  import opened Base
  import Broker
  import TradeExecution

  /** A candle dict. */
  type Candle = map<string, Value>

  /** One result row: the candle's index and time, the strategy's label and its rounded confidence. */
  datatype Row = Row(index: int, time: Value, signal: Value, confidence: Value)

  // ---------------------------------------------------------------------
  // Python sequence access
  // ---------------------------------------------------------------------

  /** A slice bound: a negative one counts from the end; both are clipped to the sequence. */
  function SliceBound(k: int, n: nat): (b: nat)
    ensures b <= n
    ensures 0 <= k <= n ==> b == k
  {
    if k < 0 then (if k + n < 0 then 0 else k + n)
    else if k > n then n
    else k
  }

  /** `s[a:b]`. */
  function Slice<T>(s: seq<T>, a: int, b: int): (r: seq<T>)
    ensures 0 <= a <= b <= |s| ==> r == s[a..b]
  {
    var lo := SliceBound(a, |s|);
    var hi := SliceBound(b, |s|);
    if lo < hi then s[lo..hi] else []
  }

  /** `s[i]`; None where Python raises IndexError. */
  function At<T>(s: seq<T>, i: int): (r: Option<T>)
    ensures 0 <= i < |s| ==> r == Some(s[i])
    ensures r.None? <==> !(-|s| <= i < |s|)
  {
    if 0 <= i < |s| then Some(s[i])
    else if -|s| <= i < 0 then Some(s[|s| + i])
    else None
  }

  // ---------------------------------------------------------------------
  // One row
  // ---------------------------------------------------------------------

  /**
   * `round(signal.get("confidence", 0), 2)`: a missing confidence is 0, a
   * bool or int stays a whole number, a float is rounded to two decimals,
   * and anything else (None included) makes `round` raise.
   */
  function RoundedConfidence(signal: map<string, Value>): (r: Option<Value>)
    ensures "confidence" !in signal ==> r == Some(VInt(0))
    ensures r.Some? && r.value.VReal? ==>
              "confidence" in signal && signal["confidence"].VReal? &&
              -0.005 <= signal["confidence"].r - r.value.r <= 0.005
    ensures r.None? <==> ("confidence" in signal &&
                          !(signal["confidence"].VBool? || signal["confidence"].VInt? ||
                            signal["confidence"].VReal?))
  {
    if "confidence" !in signal then Some(VInt(0))
    else
      match signal["confidence"]
      case VBool(b) => Some(VInt(if b then 1 else 0))
      case VInt(i) => Some(VInt(i))
      case VReal(x) =>
        assert Pow10(2) == 100;
        Some(VReal(Broker.RoundDigits(x, 2)))
      case _ => None
  }

  /** The window the strategy sees for index `i`: `candles[i - min_window : i]`. */
  function Window(candles: seq<Candle>, minWindow: int, i: int): seq<Candle> {
    Slice(candles, i - minWindow, i)
  }

  /** The row for index `i`; Raised when the candle is missing, has no time, or the confidence cannot be rounded. */
  function RowAt(strategy: seq<Candle> -> map<string, Value>, candles: seq<Candle>, minWindow: int, i: int): (r: Try<Row>)
    ensures r.Ok? ==> r.value.index == i
    ensures 0 <= i < |candles| ==>
              (r.Ok? <==> "time" in candles[i] &&
                          RoundedConfidence(strategy(Window(candles, minWindow, i))).Some?)
  {
    match At(candles, i)
    case None => Raised
    case Some(c) =>
      if "time" !in c then Raised
      else
        var signal := strategy(Window(candles, minWindow, i));
        match RoundedConfidence(signal)
        case None => Raised
        case Some(conf) => Ok(Row(i, c["time"], TradeExecution.Get(signal, "final_signal"), conf))
  }

  // ---------------------------------------------------------------------
  // The whole run
  // ---------------------------------------------------------------------

  /** The rows for every index in `[min_window, end)`, in order; Raised at the first row that raises. */
  function RowsUpTo(strategy: seq<Candle> -> map<string, Value>, candles: seq<Candle>, minWindow: int, end: int): Try<seq<Row>>
    decreases end - minWindow
  {
    if end <= minWindow then Ok([])
    else
      match RowsUpTo(strategy, candles, minWindow, end - 1)
      case Raised => Raised
      case Ok(rows) =>
        match RowAt(strategy, candles, minWindow, end - 1)
        case Raised => Raised
        case Ok(row) => Ok(rows + [row])
  }

  /** `backtest_signals(strategy, candles, min_window)`. */
  function BacktestSpec(strategy: seq<Candle> -> map<string, Value>, candles: seq<Candle>, minWindow: int): Try<seq<Row>> {
    RowsUpTo(strategy, candles, minWindow, |candles|)
  }

  /**
   * A run that completes has one row per index in `[min_window, end)`,
   * each being that index's row.
   */
  lemma {:induction false} RowsAreEveryIndex(strategy: seq<Candle> -> map<string, Value>, candles: seq<Candle>,
                                             minWindow: int, end: int)
    requires RowsUpTo(strategy, candles, minWindow, end).Ok?
    ensures var rows := RowsUpTo(strategy, candles, minWindow, end).value;
            |rows| == (if end <= minWindow then 0 else end - minWindow) &&
            forall k :: 0 <= k < |rows| ==> RowAt(strategy, candles, minWindow, minWindow + k) == Ok(rows[k])
    decreases end - minWindow
  {
    if end > minWindow {
      RowsAreEveryIndex(strategy, candles, minWindow, end - 1);
    }
  }

  /** A run completes exactly when every index in `[min_window, end)` gives a row. */
  lemma {:induction false} RunCompletesIffEveryRow(strategy: seq<Candle> -> map<string, Value>, candles: seq<Candle>,
                                                   minWindow: int, end: int)
    ensures RowsUpTo(strategy, candles, minWindow, end).Ok? <==>
            forall i :: minWindow <= i < end ==> RowAt(strategy, candles, minWindow, i).Ok?
    decreases end - minWindow
  {
    if end > minWindow {
      RunCompletesIffEveryRow(strategy, candles, minWindow, end - 1);
    }
  }

  /**
   * Row `row` is the one for candle `min_window + k`: it carries that
   * candle's index and time, and what the strategy said about exactly the
   * `min_window` candles before it.
   */
  predicate RowForCandle(strategy: seq<Candle> -> map<string, Value>, candles: seq<Candle>, minWindow: nat,
                         k: nat, row: Row)
  {
    var i := minWindow + k;
    i < |candles| &&
    row.index == i && "time" in candles[i] && row.time == candles[i]["time"] &&
    |Window(candles, minWindow, i)| == minWindow &&
    Window(candles, minWindow, i) == candles[k..i] &&
    row.signal == TradeExecution.Get(strategy(candles[k..i]), "final_signal") &&
    Some(row.confidence) == RoundedConfidence(strategy(candles[k..i]))
  }

  /** With a non-negative `min_window`, a completed run has `len - min_window` rows, row `k` for candle `min_window + k`. */
  lemma BacktestRows(strategy: seq<Candle> -> map<string, Value>, candles: seq<Candle>, minWindow: nat)
    requires BacktestSpec(strategy, candles, minWindow).Ok?
    ensures var rows := BacktestSpec(strategy, candles, minWindow).value;
            |rows| == (if |candles| <= minWindow then 0 else |candles| - minWindow) &&
            forall k :: 0 <= k < |rows| ==> RowForCandle(strategy, candles, minWindow, k, rows[k])
  {
    var rows := BacktestSpec(strategy, candles, minWindow).value;
    RowsAreEveryIndex(strategy, candles, minWindow, |candles|);
    forall k | 0 <= k < |rows|
      ensures RowForCandle(strategy, candles, minWindow, k, rows[k])
    {
      var i := minWindow + k;
      assert RowAt(strategy, candles, minWindow, i) == Ok(rows[k]);
      assert Window(candles, minWindow, i) == candles[k..i];
    }
  }

  lemma RaisedStaysRaised(strategy: seq<Candle> -> map<string, Value>, candles: seq<Candle>, minWindow: int, end: int)
    requires RowsUpTo(strategy, candles, minWindow, end).Raised?
    ensures RowsUpTo(strategy, candles, minWindow, end + 1).Raised?
  {
  }

  /** `backtest_signals`: the loop over the indices, stopping at the first row that raises. */
  method BacktestSignals(strategy: seq<Candle> -> map<string, Value>, candles: seq<Candle>, minWindow: int)
    returns (r: Try<seq<Row>>)
    ensures r == BacktestSpec(strategy, candles, minWindow)
  {
    var results: seq<Row> := [];
    var i := minWindow;
    while i < |candles|
      invariant minWindow <= i && (i <= |candles| || i == minWindow)
      invariant RowsUpTo(strategy, candles, minWindow, i) == Ok(results)
      decreases |candles| - i
    {
      var candle := At(candles, i);
      if candle.None? || "time" !in candle.value {
        RaisedAfter(strategy, candles, minWindow, i, |candles|);
        return Raised;
      }
      var signal := strategy(Window(candles, minWindow, i));
      var confidence := RoundedConfidence(signal);
      if confidence.None? {
        RaisedAfter(strategy, candles, minWindow, i, |candles|);
        return Raised;
      }
      results := results + [Row(i, candle.value["time"], TradeExecution.Get(signal, "final_signal"), confidence.value)];
      i := i + 1;
    }
    r := Ok(results);
  }

  /** Once the row at `i` raises, every longer run raises. */
  lemma {:induction false} RaisedAfter(strategy: seq<Candle> -> map<string, Value>, candles: seq<Candle>,
                                       minWindow: int, i: int, end: int)
    requires minWindow <= i < end
    requires RowsUpTo(strategy, candles, minWindow, i).Ok? && RowAt(strategy, candles, minWindow, i).Raised?
    ensures RowsUpTo(strategy, candles, minWindow, end).Raised?
    decreases end - i
  {
    if end > i + 1 {
      RaisedAfter(strategy, candles, minWindow, i, end - 1);
      RaisedStaysRaised(strategy, candles, minWindow, end - 1);
    }
  }
}
