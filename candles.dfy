// The candle collectors of the data layer.  The single-timeframe collector
// keeps a bounded window of closed candles and appends a candle only when
// its time is strictly newer than the last one taken.  The multi-timeframe
// collector refreshes each timeframe once per bar, on a schedule aligned to
// the bar boundaries, stamps every candle with whether its bar has closed,
// and tracks the time of the newest closed bar per timeframe.
//
// One pass of a collector's background loop is one method here; the
// threads, the lock and the sleeps are not modelled.  What the broker
// returns for a fetch is a parameter.

module Candles {
  import opened Base
  import TradeExecution

  /** A candle as the market-data layer returns it: a dict. */
  type Candle = map<string, Value>

  // MetaTrader 5 timeframe codes.
  const TimeframeM1: int := 1
  const TimeframeM5: int := 5
  const TimeframeM15: int := 15
  const TimeframeM30: int := 30
  const TimeframeH1: int := 16385

  /** `Config.TIMEFRAME`. */
  const DefaultTimeframe: int := TimeframeM1
  /** `Config.MIN_CANDLES_FOR_INDICATORS`. */
  const DefaultCount: int := 202
  /** The multi-timeframe collector's timeframes when none are given. */
  const DefaultTimeframes: seq<int> := [TimeframeM1, TimeframeM5, TimeframeM15]

  /** `x or default` on an optional int: None and 0 fall back. */
  function IntOr(x: Option<int>, default: int): (r: int)
    ensures x.Some? && x.value != 0 ==> r == x.value
    ensures x.None? || x.value == 0 ==> r == default
  {
    if x.Some? && x.value != 0 then x.value else default
  }

  // ---------------------------------------------------------------------
  // Bar arithmetic
  // ---------------------------------------------------------------------

  predicate KnownTimeframe(tf: int) {
    tf == TimeframeM1 || tf == TimeframeM5 || tf == TimeframeM15 ||
    tf == TimeframeM30 || tf == TimeframeH1
  }

  /**
   * `_timeframe_seconds`: a minute timeframe's code is its length in
   * minutes, H1 is an hour, and any other code gets `fallback`.
   */
  function TimeframeSeconds(tf: int, fallback: int): (s: int)
    ensures KnownTimeframe(tf) && tf != TimeframeH1 ==> s == 60 * tf
    ensures tf == TimeframeH1 ==> s == 3600
    ensures !KnownTimeframe(tf) ==> s == fallback
  {
    if tf == TimeframeM1 then 60
    else if tf == TimeframeM5 then 5 * 60
    else if tf == TimeframeM15 then 15 * 60
    else if tf == TimeframeM30 then 30 * 60
    else if tf == TimeframeH1 then 60 * 60
    else fallback
  }

  /** The multi-timeframe collector's bar length: unknown codes count as a minute. */
  function BarSeconds(tf: int): (s: int)
    ensures s >= 60
    ensures s == TimeframeSeconds(tf, 60)
  {
    TimeframeSeconds(tf, 60)
  }

  /** Only the zero multiple of a bar length lies strictly between minus one bar and two. */
  lemma SmallMultipleIsZero(d: int, ts: int)
    requires ts > 1 && -ts < ts * d <= 1
    ensures d == 0
  {
  }

  lemma MultipleShifted(k: int, ts: int)
    requires ts > 1
    ensures (ts * k + 1) % ts == 1
  {
    var x := ts * k + 1;
    var q := x / ts;
    var m := x % ts;
    assert ts * q + m == x;
    assert ts * (q - k) == ts * q - ts * k;
    SmallMultipleIsZero(q - k, ts);
  }

  /**
   * `_align_next_due`: one second past the end of the bar that contains
   * `now`.  It is always in the future, at most one bar plus a second away,
   * and one second past a bar boundary.
   */
  function AlignNextDue(now: int, tf: int): (r: int)
    ensures now + 2 <= r <= now + BarSeconds(tf) + 1
    ensures r % BarSeconds(tf) == 1
  {
    var ts := BarSeconds(tf);
    var k := now / ts;
    assert now == ts * k + now % ts;
    assert now - now % ts + ts + 1 == ts * (k + 1) + 1;
    MultipleShifted(k + 1, ts);
    now - now % ts + ts + 1
  }

  // ---------------------------------------------------------------------
  // Candle times
  // ---------------------------------------------------------------------

  /**
   * `_candle_time_to_epoch`: None stays unknown; bools and numbers are
   * truncated to an int; a datetime is converted to UTC, a naive one being
   * read as UTC already; a string or other object has no timestamp.
   */
  function CandleTimeToEpoch(t: Value): (r: Option<int>)
    ensures t == VNone ==> r.None?
    ensures t.VInt? ==> r == Some(t.i)
    ensures t.VReal? ==> r == Some(Trunc(t.r))
    ensures t.VTime? ==> r == Some(Trunc(t.wall - t.offset.GetOr(0.0)))
    ensures t.VStr? || t.VOther? ==> r.None?
  {
    match t
    case VNone => None
    case VBool(b) => Some(if b then 1 else 0)
    case VInt(i) => Some(i)
    case VReal(x) => Some(Trunc(x))
    case VTime(wall, offset) =>
      (match offset
       case None => Some(Trunc(wall))
       case Some(o) => Some(Trunc(wall - o)))
    case VStr(_) => None
    case VOther => None
  }

  /** The same instant written with any UTC offset, or naive in UTC, gives one epoch. */
  lemma SameInstantSameEpoch(utc: real, offset: real)
    ensures CandleTimeToEpoch(VTime(utc + offset, Some(offset))) == CandleTimeToEpoch(VTime(utc, None))
  {
    assert (utc + offset) - offset == utc;
  }

  /** A Python string comparison `a < b`: lexicographic by code point. */
  predicate StrLess(a: string, b: string) {
    if b == [] then false
    else if a == [] then true
    else if a[0] != b[0] then a[0] < b[0]
    else StrLess(a[1..], b[1..])
  }

  lemma {:induction false} StrLessIrreflexive(a: string)
    ensures !StrLess(a, a)
  {
    if a != [] {
      StrLessIrreflexive(a[1..]);
    }
  }

  /**
   * `a > b` on two candle times: strings compare lexicographically,
   * datetimes compare when both are naive or both aware, bools and numbers
   * compare numerically; anything else raises.
   */
  function Later(a: Value, b: Value): (r: Try<bool>)
    ensures a.VTime? && b.VTime? && (a.offset.None? != b.offset.None?) ==> r.Raised?
  {
    match (a, b)
    case (VStr(x), VStr(y)) => Ok(StrLess(y, x))
    case (VTime(wa, oa), VTime(wb, ob)) =>
      if oa.None? && ob.None? then Ok(wa > wb)
      else if oa.Some? && ob.Some? then Ok(wa - oa.value > wb - ob.value)
      else Raised
    case _ =>
      (match (RawNumber(a), RawNumber(b))
       case (Parsed(x), Parsed(y)) => Ok(x > y)
       case _ => Raised)
  }

  /** No time is later than itself. */
  lemma LaterIrreflexive(a: Value)
    ensures Later(a, a) != Ok(true)
  {
    if a.VStr? {
      StrLessIrreflexive(a.s);
    }
  }

  // ---------------------------------------------------------------------
  // Single-timeframe collector
  // ---------------------------------------------------------------------

  /** The live collector's window and the time of the newest candle it took (VNone: none yet). */
  datatype LiveState = LiveState(window: seq<Candle>, lastTime: Value)

  /**
   * The initial pull of `_collect`: the fetched window replaces the old
   * one, and the newest candle's time becomes the reference.  A failed
   * fetch leaves the window as it was; a newest candle without a time
   * raises after the window was stored.
   */
  function InitialPullSpec(window: seq<Candle>, fetched: Try<seq<Candle>>): (r: LiveState)
    ensures fetched.Raised? ==> r == LiveState(window, VNone)
    ensures fetched.Ok? ==> r.window == fetched.value
    ensures r.lastTime != VNone ==>
              fetched.Ok? && fetched.value != [] &&
              "time" in fetched.value[|fetched.value| - 1] &&
              r.lastTime == fetched.value[|fetched.value| - 1]["time"]
  {
    match fetched
    case Raised => LiveState(window, VNone)
    case Ok(cs) =>
      if cs == [] || "time" !in cs[|cs| - 1] then LiveState(cs, VNone)
      else LiveState(cs, cs[|cs| - 1]["time"])
  }

  /** Whether one loop pass takes `cs[0]`: it has a time, and it is the first or strictly newer. */
  predicate Takes(s: LiveState, cs: seq<Candle>) {
    cs != [] && "time" in cs[0] &&
    (s.lastTime == VNone || Later(cs[0]["time"], s.lastTime) == Ok(true))
  }

  /**
   * One pass of the live loop: the newest closed candle is appended when it
   * is strictly newer than the reference, and the oldest candle is evicted
   * when the window then holds more than `count`.  A failed fetch, an empty
   * answer, a candle without a time, a comparison that raises or a candle
   * that is not newer change nothing.
   */
  function LiveStepSpec(s: LiveState, count: int, fetched: Try<seq<Candle>>): (r: LiveState)
    ensures !(fetched.Ok? && Takes(s, fetched.value)) ==> r == s
    ensures fetched.Ok? && Takes(s, fetched.value) ==>
              r.lastTime == fetched.value[0]["time"] &&
              (r.window == [] || r.window[|r.window| - 1] == fetched.value[0]) &&
              (count >= 1 ==> r.window != []) &&
              (r.window == s.window + [fetched.value[0]] ||
               r.window == (s.window + [fetched.value[0]])[1..])
    ensures |s.window| <= count ==> |r.window| <= count
    ensures |r.window| <= |s.window| + 1
  {
    match fetched
    case Raised => s
    case Ok(cs) =>
      if !Takes(s, cs) then s
      else
        var grown := s.window + [cs[0]];
        LiveState(if |grown| > count then grown[1..] else grown, cs[0]["time"])
  }

  /** A candle with the same time as the reference is never appended twice. */
  lemma SameCandleNotTakenTwice(s: LiveState, count: int, cs: seq<Candle>)
    requires s.lastTime != VNone && cs != [] && "time" in cs[0] && cs[0]["time"] == s.lastTime
    ensures LiveStepSpec(s, count, Ok(cs)) == s
  {
    LaterIrreflexive(s.lastTime);
  }

  /** A window that has reached `count` keeps its length: each new candle evicts the oldest. */
  lemma FullWindowSlides(s: LiveState, count: int, cs: seq<Candle>)
    requires count >= 1 && |s.window| == count && Takes(s, cs)
    ensures var r := LiveStepSpec(s, count, Ok(cs));
            |r.window| == count && r.window == s.window[1..] + [cs[0]]
  {
    var grown := s.window + [cs[0]];
    assert grown[1..] == s.window[1..] + [cs[0]];
  }

  class LiveCandleCollector {
    const symbol: string
    const timeframe: int
    const count: int
    const interval: int
    var latestCandles: seq<Candle>
    var lastCandleTime: Value
    var running: bool
    /** How many background threads `Start` has launched. */
    var threadsStarted: nat

    function State(): LiveState
      reads this
    {
      LiveState(latestCandles, lastCandleTime)
    }

    /** `__init__`: a missing or zero timeframe, count or interval takes its default. */
    constructor(symbol: string, timeframe: Option<int>, count: Option<int>, interval: Option<int>)
      ensures this.symbol == symbol
      ensures this.timeframe == IntOr(timeframe, DefaultTimeframe)
      ensures this.count == IntOr(count, DefaultCount)
      ensures this.interval == IntOr(interval, 60)
      ensures latestCandles == [] && lastCandleTime == VNone
      ensures !running && threadsStarted == 0
    {
      this.symbol := symbol;
      this.timeframe := IntOr(timeframe, DefaultTimeframe);
      this.count := IntOr(count, DefaultCount);
      this.interval := IntOr(interval, 60);
      latestCandles := [];
      lastCandleTime := VNone;
      running := false;
      threadsStarted := 0;
    }

    /** `_timeframe_seconds`: the configured interval stands in for unknown timeframes. */
    function BarLength(): (s: int)
      reads this
      ensures s == TimeframeSeconds(timeframe, IntOr(Some(interval), 60))
    {
      TimeframeSeconds(timeframe, if interval != 0 then interval else 60)
    }

    /** `start`: idempotent; a running collector starts no second thread. */
    method Start()
      modifies this
      ensures running
      ensures threadsStarted == old(threadsStarted) + (if old(running) then 0 else 1)
      ensures State() == old(State())
    {
      if running {
        return;
      }
      running := true;
      threadsStarted := threadsStarted + 1;
    }

    method Stop()
      modifies this
      ensures !running
      ensures threadsStarted == old(threadsStarted)
      ensures State() == old(State())
    {
      running := false;
    }

    /** `get_latest_candles`: a copy of the window (a sequence is a value). */
    method GetLatestCandles() returns (r: seq<Candle>)
      ensures r == latestCandles
    {
      r := latestCandles;
    }

    /** The initial pull at the start of `_collect`; the reference time starts unknown. */
    method InitialPull(fetched: Try<seq<Candle>>)
      modifies this
      ensures State() == InitialPullSpec(old(latestCandles), fetched)
      ensures running == old(running) && threadsStarted == old(threadsStarted)
    {
      lastCandleTime := VNone;
      if fetched.Raised? {
        return;
      }
      var candles := fetched.value;
      latestCandles := candles;
      if candles != [] {
        var newest := candles[|candles| - 1];
        if "time" in newest {
          lastCandleTime := newest["time"];
        }
      }
    }

    /** One pass of the `_collect` loop with what the one-bar fetch returned. */
    method CollectStep(fetched: Try<seq<Candle>>)
      modifies this
      ensures State() == LiveStepSpec(old(State()), count, fetched)
      ensures running == old(running) && threadsStarted == old(threadsStarted)
    {
      if fetched.Raised? {
        return;
      }
      var list := fetched.value;
      if list == [] {
        return;
      }
      var candle := list[0];
      if "time" !in candle {
        return;
      }
      var t := candle["time"];
      if lastCandleTime != VNone {
        var later := Later(t, lastCandleTime);
        if later != Ok(true) {
          return;
        }
      }
      latestCandles := latestCandles + [candle];
      if |latestCandles| > count {
        latestCandles := latestCandles[1..];
      }
      lastCandleTime := t;
    }
  }

  // ---------------------------------------------------------------------
  // Multi-timeframe collector
  // ---------------------------------------------------------------------

  /**
   * `_stamp_is_closed` on one candle: a candle with a known time is closed
   * once its bar has ended by `now`; one without keeps its flag, or is
   * taken as closed.  Every other key is kept.
   */
  function Stamp(c: Candle, ts: int, now: int): (r: Candle)
    ensures r.Keys == c.Keys + {"is_closed"}
    ensures forall k :: k in c && k != "is_closed" ==> r[k] == c[k]
    ensures CandleTimeToEpoch(TradeExecution.Get(c, "time")).Some? ==>
              r["is_closed"] == VBool(CandleTimeToEpoch(TradeExecution.Get(c, "time")).value + ts <= now)
    ensures CandleTimeToEpoch(TradeExecution.Get(c, "time")).None? ==>
              r["is_closed"] == (if "is_closed" in c then c["is_closed"] else VBool(true))
  {
    match CandleTimeToEpoch(TradeExecution.Get(c, "time"))
    case None => if "is_closed" in c then c else c["is_closed" := VBool(true)]
    case Some(te) => c["is_closed" := VBool(te + ts <= now)]
  }

  /** A bar that is closed at one moment is closed at every later one. */
  lemma StampStaysClosed(c: Candle, ts: int, now: int, later: int)
    requires now <= later && Stamp(c, ts, now)["is_closed"] == VBool(true)
    ensures Stamp(c, ts, later)["is_closed"] == VBool(true)
  {
  }

  /** `_stamp_is_closed` on a list. */
  function StampAll(cs: seq<Candle>, ts: int, now: int): (r: seq<Candle>)
    ensures |r| == |cs|
    ensures forall i :: 0 <= i < |cs| ==> r[i] == Stamp(cs[i], ts, now)
  {
    seq(|cs|, i requires 0 <= i < |cs| => Stamp(cs[i], ts, now))
  }

  /** `_stamp_is_closed`, which updates the candles in place, here returns the stamped list. */
  method StampIsClosed(candles: seq<Candle>, tf: int, now: int) returns (stamped: seq<Candle>)
    ensures stamped == StampAll(candles, BarSeconds(tf), now)
  {
    var ts := BarSeconds(tf);
    stamped := [];
    var i := 0;
    while i < |candles|
      invariant 0 <= i <= |candles|
      invariant |stamped| == i
      invariant forall j :: 0 <= j < i ==> stamped[j] == Stamp(candles[j], ts, now)
    {
      stamped := stamped + [Stamp(candles[i], ts, now)];
      i := i + 1;
    }
  }

  /** `c["symbol"] = symbol` on every candle. */
  function Tag(cs: seq<Candle>, symbol: string): (r: seq<Candle>)
    ensures |r| == |cs|
    ensures forall i :: 0 <= i < |cs| ==> r[i] == cs[i]["symbol" := VStr(symbol)]
  {
    seq(|cs|, i requires 0 <= i < |cs| => cs[i]["symbol" := VStr(symbol)])
  }

  predicate FlaggedClosed(c: Candle) {
    TradeExecution.Get(c, "is_closed") == VBool(true)
  }

  /** The time of the newest candle flagged closed (`is True`), scanning from the end. */
  function NewestClosed(cs: seq<Candle>): (r: Option<Value>)
    ensures r.None? <==> forall i :: 0 <= i < |cs| ==> !FlaggedClosed(cs[i])
    ensures r.Some? ==>
              exists i :: 0 <= i < |cs| && FlaggedClosed(cs[i]) &&
                          r.value == TradeExecution.Get(cs[i], "time") &&
                          forall j :: i < j < |cs| ==> !FlaggedClosed(cs[j])
  {
    if cs == [] then None
    else
      var n := |cs| - 1;
      if FlaggedClosed(cs[n]) then Some(TradeExecution.Get(cs[n], "time"))
      else
        var r := NewestClosed(cs[..n]);
        assert forall i :: 0 <= i < n ==> cs[..n][i] == cs[i];
        r
  }

  /** `newest_closed_time or candles[-1].get("time")`. */
  function NewestTime(cs: seq<Candle>): (t: Value)
    requires cs != []
    ensures NewestClosed(cs).Some? && Truthy(NewestClosed(cs).value) ==> t == NewestClosed(cs).value
    ensures !(NewestClosed(cs).Some? && Truthy(NewestClosed(cs).value)) ==>
              t == TradeExecution.Get(cs[|cs| - 1], "time")
  {
    var closed := NewestClosed(cs);
    if closed.Some? && Truthy(closed.value) then closed.value
    else TradeExecution.Get(cs[|cs| - 1], "time")
  }

  /** Per timeframe: the stored candles, the newest bar time seen, and when the timeframe is next due. */
  datatype MultiState = MultiState(latest: map<int, seq<Candle>>,
                                   lastBar: map<int, Value>,
                                   nextDue: map<int, int>)

  /** `self._next_due_by_tf.get(tf, 0)`. */
  function DueAt(s: MultiState, tf: int): int {
    if tf in s.nextDue then s.nextDue[tf] else 0
  }

  /** `self._last_bar_time_by_tf.get(tf)`. */
  function LastBar(s: MultiState, tf: int): Value {
    if tf in s.lastBar then s.lastBar[tf] else VNone
  }

  /** What a successful fetch stores: the candles tagged with the symbol and stamped. */
  function Fresh(symbol: string, tf: int, stampEpoch: int, cs: seq<Candle>): (r: seq<Candle>)
    ensures |r| == |cs|
  {
    StampAll(Tag(cs, symbol), BarSeconds(tf), stampEpoch)
  }

  /**
   * One timeframe of one pass of the multi-timeframe loop.  A timeframe
   * that is not yet due is skipped.  Otherwise a successful fetch replaces
   * the stored candles and, when there are any, sets the last bar time to
   * the newest one when it differs; whatever the fetch did, the timeframe is
   * next due one second after its current bar ends.
   */
  function PollSpec(symbol: string, s: MultiState, tf: int, now: int, stampEpoch: int,
                    fetched: Try<seq<Candle>>): (r: MultiState)
    ensures now < DueAt(s, tf) ==> r == s
    ensures now >= DueAt(s, tf) ==> r.nextDue == s.nextDue[tf := AlignNextDue(now, tf)]
    ensures now >= DueAt(s, tf) && fetched.Raised? ==> r.latest == s.latest && r.lastBar == s.lastBar
    ensures now >= DueAt(s, tf) && fetched.Ok? ==>
              r.latest == s.latest[tf := Fresh(symbol, tf, stampEpoch, fetched.value)]
    ensures forall t :: t != tf ==> LastBar(r, t) == LastBar(s, t)
    ensures now >= DueAt(s, tf) && fetched.Ok? && fetched.value != [] ==>
              LastBar(r, tf) == NewestTime(Fresh(symbol, tf, stampEpoch, fetched.value))
    ensures !(now >= DueAt(s, tf) && fetched.Ok? && fetched.value != []) ==> r.lastBar == s.lastBar
  {
    if now < DueAt(s, tf) then s
    else
      var polled :=
        match fetched
        case Raised => s
        case Ok(cs) =>
          var stored := Fresh(symbol, tf, stampEpoch, cs);
          var latest := s.latest[tf := stored];
          if stored == [] then s.(latest := latest)
          else
            var newest := NewestTime(stored);
            var last := LastBar(s, tf);
            // Structural equality of values: Python also takes 1 == 1.0,
            // which `VInt(1) != VReal(1.0)` does not.
            if last == VNone || newest != last then s.(latest := latest, lastBar := s.lastBar[tf := newest])
            else s.(latest := latest);
      polled.(nextDue := s.nextDue[tf := AlignNextDue(now, tf)])
  }

  /** A poll leaves the timeframe's last bar time alone when the newest bar time has not changed. */
  lemma UnchangedBarKeepsLastBar(symbol: string, s: MultiState, tf: int, now: int, stampEpoch: int,
                                 cs: seq<Candle>)
    requires cs != [] && tf in s.lastBar
    requires s.lastBar[tf] == NewestTime(Fresh(symbol, tf, stampEpoch, cs))
    ensures PollSpec(symbol, s, tf, now, stampEpoch, Ok(cs)).lastBar == s.lastBar
  {
  }

  /** Polling a timeframe twice in the same second fetches only once. */
  lemma PolledNotDueAgain(symbol: string, s: MultiState, tf: int, now: int, stampEpoch: int,
                          first: Try<seq<Candle>>, second: Try<seq<Candle>>)
    requires now >= DueAt(s, tf)
    ensures var r := PollSpec(symbol, s, tf, now, stampEpoch, first);
            PollSpec(symbol, r, tf, now, stampEpoch, second) == r
  {
    var r := PollSpec(symbol, s, tf, now, stampEpoch, first);
    assert DueAt(r, tf) == AlignNextDue(now, tf);
  }

  /** The last pass's timeframes polled in order. */
  function PollAllSpec(symbol: string, s: MultiState, tfs: seq<int>, now: int, stampEpoch: int,
                       fetch: int -> Try<seq<Candle>>): MultiState
  {
    if tfs == [] then s
    else
      var tf := tfs[|tfs| - 1];
      PollSpec(symbol, PollAllSpec(symbol, s, tfs[..|tfs| - 1], now, stampEpoch, fetch),
               tf, now, stampEpoch, fetch(tf))
  }

  /** After a pass, every timeframe polled is scheduled in the future. */
  lemma {:induction false} PassSchedulesFuture(symbol: string, s: MultiState, tfs: seq<int>, now: int,
                                               stampEpoch: int, fetch: int -> Try<seq<Candle>>)
    requires forall tf :: tf in tfs ==> tf in s.nextDue
    ensures var r := PollAllSpec(symbol, s, tfs, now, stampEpoch, fetch);
            s.nextDue.Keys <= r.nextDue.Keys &&
            forall tf :: tf in tfs ==> tf in r.nextDue && r.nextDue[tf] > now
  {
    if tfs != [] {
      var init := tfs[..|tfs| - 1];
      var last := tfs[|tfs| - 1];
      assert forall tf :: tf in init ==> tf in tfs;
      PassSchedulesFuture(symbol, s, init, now, stampEpoch, fetch);
      var mid := PollAllSpec(symbol, s, init, now, stampEpoch, fetch);
      var r := PollAllSpec(symbol, s, tfs, now, stampEpoch, fetch);
      assert r == PollSpec(symbol, mid, last, now, stampEpoch, fetch(last));
      forall tf | tf in tfs
        ensures tf in r.nextDue && r.nextDue[tf] > now
      {
        if tf != last {
          assert tf in init;
        } else if now < DueAt(mid, last) {
          assert last in mid.nextDue;
        }
      }
    }
  }

  /** `tick_epoch or wall_epoch`: the tick's time when there is one. */
  function StampEpoch(tickEpoch: int, wallEpoch: int): (e: int)
    ensures tickEpoch != 0 ==> e == tickEpoch
    ensures tickEpoch == 0 ==> e == wallEpoch
  {
    if tickEpoch != 0 then tickEpoch else wallEpoch
  }

  class MultiTimeframeCandleCollector {
    const symbol: string
    const timeframes: seq<int>
    const count: int
    var latestByTf: map<int, seq<Candle>>
    var lastBarTimeByTf: map<int, Value>
    var nextDueByTf: map<int, int>
    var running: bool
    var threadsStarted: nat

    function State(): MultiState
      reads this
    {
      MultiState(latestByTf, lastBarTimeByTf, nextDueByTf)
    }

    /**
     * `__init__`: missing or empty timeframes default to M1, M5, M15; every
     * timeframe starts with no candles, no bar time and due at once.
     */
    constructor(symbol: string, timeframes: Option<seq<int>>, count: Option<int>)
      ensures this.symbol == symbol
      ensures this.timeframes == (if timeframes.Some? && timeframes.value != [] then timeframes.value
                                  else DefaultTimeframes)
      ensures this.count == IntOr(count, DefaultCount)
      ensures latestByTf == (map tf | tf in this.timeframes :: [])
      ensures lastBarTimeByTf == (map tf | tf in this.timeframes :: VNone)
      ensures nextDueByTf == (map tf | tf in this.timeframes :: 0)
      ensures !running && threadsStarted == 0
    {
      this.symbol := symbol;
      var tfs := if timeframes.Some? && timeframes.value != [] then timeframes.value else DefaultTimeframes;
      this.timeframes := tfs;
      this.count := IntOr(count, DefaultCount);
      latestByTf := map tf | tf in tfs :: [];
      lastBarTimeByTf := map tf | tf in tfs :: VNone;
      nextDueByTf := map tf | tf in tfs :: 0;
      running := false;
      threadsStarted := 0;
    }

    /** `start`: idempotent; a running collector starts no second thread. */
    method Start()
      modifies this
      ensures running
      ensures threadsStarted == old(threadsStarted) + (if old(running) then 0 else 1)
      ensures State() == old(State())
    {
      if running {
        return;
      }
      running := true;
      threadsStarted := threadsStarted + 1;
    }

    method Stop()
      modifies this
      ensures !running
      ensures threadsStarted == old(threadsStarted)
      ensures State() == old(State())
    {
      running := false;
    }

    /** `get_latest_candles(None)`: a copy of every timeframe's candles. */
    method GetAllLatestCandles() returns (r: map<int, seq<Candle>>)
      ensures r == latestByTf
    {
      r := latestByTf;
    }

    /** `get_latest_candles(tf)`: a copy of one timeframe's candles, `[]` for an unknown one. */
    method GetLatestCandles(tf: int) returns (r: seq<Candle>)
      ensures tf in latestByTf ==> r == latestByTf[tf]
      ensures tf !in latestByTf ==> r == []
    {
      r := if tf in latestByTf then latestByTf[tf] else [];
    }

    /** The start of `_collect`: every timeframe becomes due at once. */
    method ResetSchedule()
      modifies this
      ensures nextDueByTf.Keys == old(nextDueByTf).Keys + (set tf | tf in timeframes)
      ensures forall tf :: tf in timeframes ==> nextDueByTf[tf] == 0
      ensures forall tf :: tf in old(nextDueByTf) && tf !in timeframes ==> nextDueByTf[tf] == old(nextDueByTf)[tf]
      ensures latestByTf == old(latestByTf) && lastBarTimeByTf == old(lastBarTimeByTf)
      ensures running == old(running) && threadsStarted == old(threadsStarted)
    {
      var i := 0;
      while i < |timeframes|
        invariant 0 <= i <= |timeframes|
        invariant nextDueByTf.Keys == old(nextDueByTf).Keys + (set tf | tf in timeframes[..i])
        invariant forall tf :: tf in timeframes[..i] ==> nextDueByTf[tf] == 0
        invariant forall tf :: tf in old(nextDueByTf) && tf !in timeframes[..i] ==> nextDueByTf[tf] == old(nextDueByTf)[tf]
        invariant latestByTf == old(latestByTf) && lastBarTimeByTf == old(lastBarTimeByTf)
        invariant running == old(running) && threadsStarted == old(threadsStarted)
      {
        assert timeframes[..i + 1] == timeframes[..i] + [timeframes[i]];
        nextDueByTf := nextDueByTf[timeframes[i] := 0];
        i := i + 1;
      }
      assert timeframes[..i] == timeframes;
    }

    /** One timeframe of one pass of `_collect`, with what the fetch returned. */
    method PollTimeframe(tf: int, now: int, stampEpoch: int, fetched: Try<seq<Candle>>)
      modifies this
      ensures State() == PollSpec(symbol, old(State()), tf, now, stampEpoch, fetched)
      ensures running == old(running) && threadsStarted == old(threadsStarted)
    {
      var due := if tf in nextDueByTf then nextDueByTf[tf] else 0;
      if now < due {
        return;
      }
      if fetched.Ok? {
        var tagged := Tag(fetched.value, symbol);
        var candles := StampIsClosed(tagged, tf, stampEpoch);
        latestByTf := latestByTf[tf := candles];
        if candles != [] {
          var newest := NewestTime(candles);
          var last := if tf in lastBarTimeByTf then lastBarTimeByTf[tf] else VNone;
          if last == VNone || newest != last {
            lastBarTimeByTf := lastBarTimeByTf[tf := newest];
          }
        }
      }
      nextDueByTf := nextDueByTf[tf := AlignNextDue(now, tf)];
    }

    /** One pass of the `_collect` loop over every timeframe. */
    method CollectPass(wallEpoch: int, tickEpoch: int, fetch: int -> Try<seq<Candle>>)
      modifies this
      ensures State() == PollAllSpec(symbol, old(State()), timeframes, wallEpoch,
                                     StampEpoch(tickEpoch, wallEpoch), fetch)
      ensures running == old(running) && threadsStarted == old(threadsStarted)
    {
      var stampEpoch := StampEpoch(tickEpoch, wallEpoch);
      var i := 0;
      while i < |timeframes|
        invariant 0 <= i <= |timeframes|
        invariant State() == PollAllSpec(symbol, old(State()), timeframes[..i], wallEpoch, stampEpoch, fetch)
        invariant running == old(running) && threadsStarted == old(threadsStarted)
      {
        assert timeframes[..i + 1][..i] == timeframes[..i];
        PollTimeframe(timeframes[i], wallEpoch, stampEpoch, fetch(timeframes[i]));
        i := i + 1;
      }
      assert timeframes[..i] == timeframes;
    }
  }
}
