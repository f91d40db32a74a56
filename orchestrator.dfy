// The signal orchestrator: one polling iteration over the symbols (trigger
// once per strictly newer closed bar of the entry timeframe, entries before
// candle-close exits), the dispatch of generated signals, and the per-tick
// routing of exit actions and confirmed n-tick signals.

module Orchestrator {
  import opened Base
  import opened ExitShared

  // ---------------------------------------------------------------------
  // Candle snapshots
  // ---------------------------------------------------------------------

  /**
   * What the candle collector hands back for a symbol: nothing usable, a
   * map from timeframe to its candles (None when the entry is not a list),
   * or a plain list of candles.
   */
  datatype Snapshot = NoSnapshot | ByTimeframe(byTf: map<int, Option<seq<Record>>>) | CandleList(candles: seq<Record>)

  /** `_extract_tf_candles`: the candles of timeframe `tf`, or none. */
  function ExtractTfCandles(snap: Snapshot, tf: int): (cs: seq<Record>)
    ensures snap.CandleList? ==> cs == snap.candles
    ensures snap.ByTimeframe? && tf in snap.byTf && snap.byTf[tf].Some? ==> cs == snap.byTf[tf].value
    ensures snap.NoSnapshot? || (snap.ByTimeframe? && (tf !in snap.byTf || snap.byTf[tf].None?)) ==> cs == []
  {
    match snap
    case NoSnapshot => []
    case ByTimeframe(m) => if tf in m && m[tf].Some? then m[tf].value else []
    case CandleList(cs) => cs
  }

  /** The flags that may mark a candle as closed, in the order they are consulted. */
  const ClosedFlags: seq<string> := ["is_closed", "closed", "complete", "is_complete"]

  /**
   * `_is_candle_closed`: the first flag the candle carries decides (by its
   * truthiness); a candle with none of them counts as closed.
   */
  predicate IsCandleClosed(c: Record) {
    if forall k :: k in ClosedFlags ==> k !in c.Fields() then true
    else Truthy(GetAny(c, ClosedFlags))
  }

  /** The flag priority: `is_closed` wins over `closed`, which wins over `complete`, then `is_complete`. */
  lemma ClosedFlagPriority(c: Record)
    ensures "is_closed" in c.Fields() ==> (IsCandleClosed(c) <==> Truthy(c.Fields()["is_closed"]))
    ensures "is_closed" !in c.Fields() && "closed" in c.Fields() ==>
              (IsCandleClosed(c) <==> Truthy(c.Fields()["closed"]))
    ensures "is_closed" !in c.Fields() && "closed" !in c.Fields() && "complete" in c.Fields() ==>
              (IsCandleClosed(c) <==> Truthy(c.Fields()["complete"]))
    ensures ("is_closed" !in c.Fields() && "closed" !in c.Fields() && "complete" !in c.Fields() &&
             "is_complete" in c.Fields()) ==> (IsCandleClosed(c) <==> Truthy(c.Fields()["is_complete"]))
    ensures (forall k :: k in ClosedFlags ==> k !in c.Fields()) ==> IsCandleClosed(c)
  {
    var F := c.Fields();
    assert ClosedFlags[0] == "is_closed" && ClosedFlags[1] == "closed";
    assert ClosedFlags[2] == "complete" && ClosedFlags[3] == "is_complete";
    if "is_closed" !in F && "closed" in F {
      assert GetAny(c, ClosedFlags) == F[ClosedFlags[1]];
    }
    if "is_closed" !in F && "closed" !in F && "complete" in F {
      assert GetAny(c, ClosedFlags) == F[ClosedFlags[2]];
    }
    if "is_closed" !in F && "closed" !in F && "complete" !in F && "is_complete" in F {
      assert GetAny(c, ClosedFlags) == F[ClosedFlags[3]];
    }
  }

  /** A dict candle that counts as closed. */
  predicate ClosedDict(c: Record) {
    c.Dict? && IsCandleClosed(c)
  }

  /** Index of the newest closed dict candle among the first `n`, if any. */
  function LastClosedIndex(candles: seq<Record>, n: nat): (r: Option<nat>)
    requires n <= |candles|
    ensures r.Some? ==> r.value < n && ClosedDict(candles[r.value])
    ensures r.Some? ==> forall k :: r.value < k < n ==> !ClosedDict(candles[k])
    ensures r.None? ==> forall k :: 0 <= k < n ==> !ClosedDict(candles[k])
  {
    if n == 0 then None
    else if ClosedDict(candles[n - 1]) then Some(n - 1)
    else LastClosedIndex(candles, n - 1)
  }

  /**
   * `_last_closed_candle`: the newest dict candle not flagged open; when
   * every candle is flagged open (or is not a dict), the second-last
   * candle, or the only one.
   */
  function LastClosedCandle(candles: seq<Record>): (r: Option<Record>)
    ensures r.None? <==> candles == []
    ensures r.Some? ==> r.value in candles
    ensures forall j :: (0 <= j < |candles| && ClosedDict(candles[j]) &&
                         (forall k :: j < k < |candles| ==> !ClosedDict(candles[k]))) ==> r == Some(candles[j])
    ensures (forall k :: 0 <= k < |candles| ==> !ClosedDict(candles[k])) ==>
              (|candles| >= 2 ==> r == Some(candles[|candles| - 2])) &&
              (|candles| == 1 ==> r == Some(candles[0]))
  {
    if candles == [] then None
    else
      match LastClosedIndex(candles, |candles|)
      case Some(i) => Some(candles[i])
      case None => if |candles| >= 2 then Some(candles[|candles| - 2]) else Some(candles[0])
  }

  // ---------------------------------------------------------------------
  // Candle times
  // ---------------------------------------------------------------------

  /** Numbers above this are epoch milliseconds, not seconds. */
  const MillisThreshold: real := 10000000000.0

  /** A parsed ISO-8601 stamp: its wall-clock reading and, when given, its UTC offset (seconds). */
  datatype IsoStamp = IsoStamp(wall: real, offset: Option<real>)

  /** The UTC instant of a datetime; a naive one is taken as UTC. */
  function UtcEpoch(wall: real, offset: Option<real>): (t: real)
    ensures offset.None? ==> t == wall
  {
    wall - offset.GetOr(0.0)
  }

  /** `datetime.fromtimestamp` of a numeric stamp, read as milliseconds above the threshold. */
  function FromNumber(x: real): (t: real)
    ensures x <= MillisThreshold ==> t == x
    ensures x > MillisThreshold ==> t * 1000.0 == x
  {
    if x > MillisThreshold then x / 1000.0 else x
  }

  /** A stamp in seconds and the same stamp in milliseconds denote the same instant. */
  lemma MillisecondStampsAgree(seconds: real)
    requires 10000000.0 < seconds <= MillisThreshold
    ensures FromNumber(seconds * 1000.0) == FromNumber(seconds)
  {
  }

  /** `s.replace("Z", "+00:00")`. */
  function ReplaceZ(s: string): (r: string)
    ensures forall i :: 0 <= i < |r| ==> r[i] != 'Z'
    ensures (forall i :: 0 <= i < |s| ==> s[i] != 'Z') ==> r == s
  {
    if s == [] then []
    else (if s[0] == 'Z' then "+00:00" else [s[0]]) + ReplaceZ(s[1..])
  }

  /** The first of `keys` whose value is not None. */
  function FirstNotNone(c: Record, keys: seq<string>): (v: Value)
    ensures v != VNone ==> exists k :: k in keys && k in c.Fields() && c.Fields()[k] == v
    ensures v == VNone ==> forall k :: k in keys && k in c.Fields() ==> c.Fields()[k] == VNone
  {
    if keys == [] then VNone
    else if keys[0] in c.Fields() && c.Fields()[keys[0]] != VNone then c.Fields()[keys[0]]
    else FirstNotNone(c, keys[1..])
  }

  const TimeKeys: seq<string> := ["time", "timestamp", "time_msc"]

  /**
   * `_candle_time` as seconds since the epoch (UTC): `time`, then
   * `timestamp`, then `time_msc`; datetimes keep their instant (naive ones
   * are UTC), numbers (bools included, as Python counts them as ints) are
   * seconds or milliseconds, text goes through the ISO parser `iso`.
   */
  function CandleTime(c: Option<Record>, iso: string -> Option<IsoStamp>): (t: Option<real>)
  {
    if c.None? || !c.value.Dict? || c.value.entries == map[] then None
    else
      match FirstNotNone(c.value, TimeKeys)
      case VTime(w, o) => Some(UtcEpoch(w, o))
      case VBool(b) => Some(if b then 1.0 else 0.0)
      case VInt(i) => Some(FromNumber(i as real))
      case VReal(x) => Some(FromNumber(x))
      case VStr(s) =>
        if s == "" then None
        else (match iso(ReplaceZ(s)) case Some(st) => Some(UtcEpoch(st.wall, st.offset)) case None => None)
      case _ => None
  }

  /** What `CandleTime` promises: no time without a non-empty dict, and each reading of the stamp. */
  lemma CandleTimeCases(c: Option<Record>, iso: string -> Option<IsoStamp>)
    ensures c.None? || c.value.Obj? || c.value.entries == map[] ==> CandleTime(c, iso).None?
    ensures c.Some? && c.value.Dict? && "time" in c.value.entries && c.value.entries["time"].VTime? &&
            c.value.entries["time"].offset.None? ==>
              CandleTime(c, iso) == Some(c.value.entries["time"].wall)
    ensures c.Some? && c.value.Dict? && "time" in c.value.entries && c.value.entries["time"].VInt? ==>
              CandleTime(c, iso) == Some(FromNumber(c.value.entries["time"].i as real))
    ensures c.Some? && c.value.Dict? && "time" in c.value.entries && c.value.entries["time"].VReal? ==>
              CandleTime(c, iso) == Some(FromNumber(c.value.entries["time"].r))
    ensures c.Some? && c.value.Dict? && FirstNotNone(c.value, TimeKeys) == VNone ==> CandleTime(c, iso).None?
  {
    if c.Some? && c.value.Dict? && "time" in c.value.entries && c.value.entries["time"] != VNone {
      assert TimeKeys[0] == "time";
      assert c.value.entries != map[];
    }
  }

  /** `_resolve_symbol_from_candle_or_fallback`. */
  function ResolveSymbol(c: Option<Record>, fallback: string): (r: Option<string>)
    ensures c.Some? && c.value.Dict? && "symbol" in c.value.entries && Truthy(c.value.entries["symbol"]) ==>
              r == Some(Str(c.value.entries["symbol"]))
    ensures !(c.Some? && c.value.Dict? && "symbol" in c.value.entries && Truthy(c.value.entries["symbol"])) ==>
              r == (if fallback != "" then Some(fallback) else None)
  {
    if c.Some? && c.value.Dict? && "symbol" in c.value.entries && Truthy(c.value.entries["symbol"]) then
      Some(Str(c.value.entries["symbol"]))
    else if fallback != "" then Some(fallback)
    else None
  }

  /** Python's `s[:n]`. */
  function PyPrefix<T>(s: seq<T>, n: int): (r: seq<T>)
    ensures |r| <= |s| && r == s[..|r|]
    ensures 0 <= n <= |s| ==> |r| == n
    ensures n < 0 && -n <= |s| ==> |r| == |s| + n
  {
    if n >= 0 then (if n <= |s| then s[..n] else s)
    else if -n <= |s| then s[..|s| + n] else []
  }

  /** Keeps the non-empty symbols. */
  function NonEmpty(s: seq<string>): (r: seq<string>)
    ensures forall x :: x in r <==> x in s && x != ""
    ensures |r| <= |s|
  {
    if s == [] then [] else (if s[0] != "" then [s[0]] else []) + NonEmpty(s[1..])
  }

  /**
   * `_symbols_to_process`: the collector's own symbol when it has one,
   * otherwise the first `MAX_SYMBOLS` configured symbols (all of them when
   * that is 0), without empty ones.
   */
  function SymbolsToProcess(collectorSymbol: Value, configured: seq<string>, maxSymbols: int): (r: seq<string>)
    ensures Truthy(collectorSymbol) ==> r == [Str(collectorSymbol)]
    ensures !Truthy(collectorSymbol) ==> forall x :: x in r ==> x in configured && x != ""
    ensures !Truthy(collectorSymbol) && 0 < maxSymbols ==> |r| <= maxSymbols
  {
    if Truthy(collectorSymbol) then [Str(collectorSymbol)]
    else if configured == [] then []
    else
      var limit := if maxSymbols == 0 then |configured| else maxSymbols;
      NonEmpty(PyPrefix(configured, limit))
  }

  // ---------------------------------------------------------------------
  // The once-per-closed-bar trigger
  // ---------------------------------------------------------------------

  /**
   * The baseline rule: the first closed time of a symbol only records the
   * baseline; later a strictly newer time fires and becomes the baseline;
   * an older or equal one changes nothing.
   */
  function Advance(baseline: map<string, real>, sym: string, t: real): (r: (bool, map<string, real>))
    ensures sym !in baseline ==> !r.0 && r.1 == baseline[sym := t]
    ensures sym in baseline ==> (r.0 <==> t > baseline[sym])
    ensures sym in baseline && r.0 ==> r.1 == baseline[sym := t]
    ensures sym in baseline && !r.0 ==> r.1 == baseline
  {
    if sym !in baseline then (false, baseline[sym := t])
    else if t <= baseline[sym] then (false, baseline)
    else (true, baseline[sym := t])
  }

  /** Baselines never move backwards and never disappear. */
  lemma AdvanceMonotone(baseline: map<string, real>, sym: string, t: real)
    ensures forall s :: s in baseline ==> s in Advance(baseline, sym, t).1 && Advance(baseline, sym, t).1[s] >= baseline[s]
    ensures sym in Advance(baseline, sym, t).1 && Advance(baseline, sym, t).1[sym] >= t
  {
  }

  /** The same closed bar never fires twice, whatever happened in between. */
  lemma FiresOncePerBar(baseline: map<string, real>, sym: string, t: real, t2: real)
    requires t2 <= t
    ensures !Advance(Advance(baseline, sym, t).1, sym, t2).0
  {
  }

  /**
   * One symbol of `_run` as a function of the baselines: the newly closed
   * bar that fires (its symbol, time and candle), if any, and the new
   * baselines.
   */
  function Step(tfEntry: int, symbol: string, snap: Snapshot, iso: string -> Option<IsoStamp>, baseline: map<string, real>)
    : (Option<(string, real, Record)>, map<string, real>)
  {
    var c := LastClosedCandle(ExtractTfCandles(snap, tfEntry));
    var t := CandleTime(c, iso);
    var sym := ResolveSymbol(c, symbol);
    if c.None? || t.None? || sym.None? then (None, baseline)
    else
      var a := Advance(baseline, sym.value, t.value);
      (if a.0 then Some((sym.value, t.value, c.value)) else None, a.1)
  }

  /** A bar fires only for a symbol seen before and strictly after its baseline; baselines never move back. */
  lemma StepFacts(tfEntry: int, symbol: string, snap: Snapshot, iso: string -> Option<IsoStamp>, baseline: map<string, real>)
    ensures var r := Step(tfEntry, symbol, snap, iso, baseline);
            forall s :: s in baseline ==> s in r.1 && r.1[s] >= baseline[s]
    ensures var r := Step(tfEntry, symbol, snap, iso, baseline);
            r.0.Some? ==> r.0.value.0 in baseline && r.0.value.1 > baseline[r.0.value.0] &&
                          r.0.value.0 in r.1 && r.1[r.0.value.0] == r.0.value.1
  {
    var c := LastClosedCandle(ExtractTfCandles(snap, tfEntry));
    var t := CandleTime(c, iso);
    var sym := ResolveSymbol(c, symbol);
    if !(c.None? || t.None? || sym.None?) {
      AdvanceMonotone(baseline, sym.value, t.value);
    }
  }

  /** Work the iteration asks for: entries for a new bar, then its candle-close exits. */
  datatype Effect =
    | RunEntries(symbol: string, asof: real, snapshot: Snapshot)
    | CandleCloseExits(symbol: string, closePrice: real, asof: real)

  /** The close price handed to `on_candle_close`: the candle's `close`, when `float()` accepts it. */
  function CloseOf(c: Record): (px: Option<real>)
    ensures c.Obj? || "close" !in c.entries ==> px.None?
    ensures c.Dict? && "close" in c.entries ==> px == FloatOf(c.entries["close"])
  {
    if c.Dict? && "close" in c.entries then FloatOf(c.entries["close"]) else None
  }

  /** The effects of one newly closed bar: entries first, candle-close exits after (when wired and priced). */
  function BarEffects(sym: string, t: real, snap: Snapshot, candle: Record, exitTrade: bool): (es: seq<Effect>)
    ensures |es| >= 1 && es[0] == RunEntries(sym, t, snap)
    ensures |es| <= 2
    ensures |es| == 2 <==> exitTrade && CloseOf(candle).Some?
    ensures |es| == 2 ==> es[1] == CandleCloseExits(sym, CloseOf(candle).value, t)
  {
    [RunEntries(sym, t, snap)] +
    (if exitTrade && CloseOf(candle).Some? then [CandleCloseExits(sym, CloseOf(candle).value, t)] else [])
  }

  /** Every candle-close exit is requested right after the entries of the same symbol and bar. */
  predicate EntriesBeforeExits(log: seq<Effect>) {
    forall i :: 0 <= i < |log| && log[i].CandleCloseExits? ==>
      i > 0 && log[i - 1].RunEntries? && log[i - 1].symbol == log[i].symbol && log[i - 1].asof == log[i].asof
  }

  lemma EntriesBeforeExitsAppend(log: seq<Effect>, es: seq<Effect>)
    requires EntriesBeforeExits(log)
    requires |es| >= 1 && es[0].RunEntries? && |es| <= 2
    requires |es| == 2 ==> es[1].CandleCloseExits? && es[1].symbol == es[0].symbol && es[1].asof == es[0].asof
    ensures EntriesBeforeExits(log + es)
  {
    var l2 := log + es;
    forall i | 0 <= i < |l2| && l2[i].CandleCloseExits?
      ensures i > 0 && l2[i - 1].RunEntries? && l2[i - 1].symbol == l2[i].symbol && l2[i - 1].asof == l2[i].asof
    {
      if i < |log| {
        assert l2[i] == log[i] && l2[i - 1] == log[i - 1];
      } else {
        assert i == |log| + 1;
      }
    }
  }

  /** The snapshot the collector gives for a symbol. */
  function SnapOf(snaps: map<string, Snapshot>, symbol: string): Snapshot {
    if symbol in snaps then snaps[symbol] else NoSnapshot
  }

  /** What one iteration of `_run` has done so far: the work asked for, the baselines, and whether an exception ended it. */
  datatype Pass = Pass(log: seq<Effect>, baseline: map<string, real>, aborted: bool)

  /**
   * One iteration of `_run` over `symbols` as a function.  Each newly
   * closed bar runs the entries and then the candle-close exits; when the
   * entries raise (`entriesRaise` of the bar's snapshot and time), the
   * exception reaches the loop's handler, so the bar's exits and every
   * later symbol are skipped, while the baseline already moved.
   */
  function RunPass(tfEntry: int, symbols: seq<string>, snaps: map<string, Snapshot>, iso: string -> Option<IsoStamp>,
                   exitTrade: bool, entriesRaise: (Snapshot, real) -> bool, baseline0: map<string, real>): Pass
    decreases |symbols|
  {
    if symbols == [] then Pass([], baseline0, false)
    else
      var p := RunPass(tfEntry, symbols[..|symbols| - 1], snaps, iso, exitTrade, entriesRaise, baseline0);
      if p.aborted then p
      else
        var snap := SnapOf(snaps, symbols[|symbols| - 1]);
        var st := Step(tfEntry, symbols[|symbols| - 1], snap, iso, p.baseline);
        match st.0
        case None => Pass(p.log, st.1, false)
        case Some(bar) =>
          if entriesRaise(snap, bar.1) then Pass(p.log + [RunEntries(bar.0, bar.1, snap)], st.1, true)
          else Pass(p.log + BarEffects(bar.0, bar.1, snap, bar.2, exitTrade), st.1, false)
  }

  /** Once the pass has been ended by an exception, the later symbols change nothing. */
  lemma {:induction false} RunPassStops(tfEntry: int, symbols: seq<string>, snaps: map<string, Snapshot>,
                                        iso: string -> Option<IsoStamp>, exitTrade: bool,
                                        entriesRaise: (Snapshot, real) -> bool, baseline0: map<string, real>, i: int)
    requires 0 <= i <= |symbols|
    requires RunPass(tfEntry, symbols[..i], snaps, iso, exitTrade, entriesRaise, baseline0).aborted
    ensures RunPass(tfEntry, symbols, snaps, iso, exitTrade, entriesRaise, baseline0) ==
            RunPass(tfEntry, symbols[..i], snaps, iso, exitTrade, entriesRaise, baseline0)
    decreases |symbols| - i
  {
    if i == |symbols| {
      assert symbols[..i] == symbols;
    } else {
      assert symbols[..i + 1][..i] == symbols[..i];
      RunPassStops(tfEntry, symbols, snaps, iso, exitTrade, entriesRaise, baseline0, i + 1);
    }
  }

  /**
   * What one iteration promises: entries precede the exits of the same bar,
   * baselines never move back, every bar worked on is strictly newer than
   * its symbol's old baseline, and an exception comes from the entries of
   * the last bar, which then gets no candle-close exits.
   */
  lemma RunPassFacts(tfEntry: int, symbols: seq<string>, snaps: map<string, Snapshot>,
                       iso: string -> Option<IsoStamp>, exitTrade: bool,
                       entriesRaise: (Snapshot, real) -> bool, baseline0: map<string, real>)
    ensures var p := RunPass(tfEntry, symbols, snaps, iso, exitTrade, entriesRaise, baseline0);
            EntriesBeforeExits(p.log) &&
            (forall s :: s in baseline0 ==> s in p.baseline && p.baseline[s] >= baseline0[s]) &&
            (forall e :: e in p.log ==> e.symbol in p.baseline && p.baseline[e.symbol] >= e.asof) &&
            (forall e :: e in p.log && e.symbol in baseline0 ==> e.asof > baseline0[e.symbol])
    ensures var p := RunPass(tfEntry, symbols, snaps, iso, exitTrade, entriesRaise, baseline0);
            p.aborted ==> |p.log| > 0 && p.log[|p.log| - 1].RunEntries? &&
                          entriesRaise(p.log[|p.log| - 1].snapshot, p.log[|p.log| - 1].asof)
  {
    RunPassOrder(tfEntry, symbols, snaps, iso, exitTrade, entriesRaise, baseline0);
    RunPassBaseline(tfEntry, symbols, snaps, iso, exitTrade, entriesRaise, baseline0);
    RunPassAborts(tfEntry, symbols, snaps, iso, exitTrade, entriesRaise, baseline0);
  }

  /** Over a pass, the entries of each bar come right before its candle-close exits. */
  lemma {:induction false} RunPassOrder(tfEntry: int, symbols: seq<string>, snaps: map<string, Snapshot>,
                                        iso: string -> Option<IsoStamp>, exitTrade: bool,
                                        entriesRaise: (Snapshot, real) -> bool, baseline0: map<string, real>)
    ensures EntriesBeforeExits(RunPass(tfEntry, symbols, snaps, iso, exitTrade, entriesRaise, baseline0).log)
    decreases |symbols|
  {
    if symbols != [] {
      var init := symbols[..|symbols| - 1];
      RunPassOrder(tfEntry, init, snaps, iso, exitTrade, entriesRaise, baseline0);
      var p := RunPass(tfEntry, init, snaps, iso, exitTrade, entriesRaise, baseline0);
      if !p.aborted {
        var snap := SnapOf(snaps, symbols[|symbols| - 1]);
        var st := Step(tfEntry, symbols[|symbols| - 1], snap, iso, p.baseline);
        if st.0.Some? {
          var bar := st.0.value;
          var es := if entriesRaise(snap, bar.1) then [RunEntries(bar.0, bar.1, snap)]
                    else BarEffects(bar.0, bar.1, snap, bar.2, exitTrade);
          EntriesBeforeExitsAppend(p.log, es);
          assert RunPass(tfEntry, symbols, snaps, iso, exitTrade, entriesRaise, baseline0).log == p.log + es;
        }
      }
    }
  }

  /**
   * Over a pass, baselines never move back, and every bar worked on is
   * strictly newer than its symbol's old baseline and not newer than its new one.
   */
  lemma {:induction false} RunPassBaseline(tfEntry: int, symbols: seq<string>, snaps: map<string, Snapshot>,
                                        iso: string -> Option<IsoStamp>, exitTrade: bool,
                                        entriesRaise: (Snapshot, real) -> bool, baseline0: map<string, real>)
    ensures var p := RunPass(tfEntry, symbols, snaps, iso, exitTrade, entriesRaise, baseline0);
            (forall s :: s in baseline0 ==> s in p.baseline && p.baseline[s] >= baseline0[s]) &&
            (forall e :: e in p.log ==> e.symbol in p.baseline && p.baseline[e.symbol] >= e.asof) &&
            (forall e :: e in p.log && e.symbol in baseline0 ==> e.asof > baseline0[e.symbol])
    decreases |symbols|
  {
    if symbols != [] {
      var init := symbols[..|symbols| - 1];
      RunPassBaseline(tfEntry, init, snaps, iso, exitTrade, entriesRaise, baseline0);
      var p := RunPass(tfEntry, init, snaps, iso, exitTrade, entriesRaise, baseline0);
      if !p.aborted {
        var snap := SnapOf(snaps, symbols[|symbols| - 1]);
        var st := Step(tfEntry, symbols[|symbols| - 1], snap, iso, p.baseline);
        StepFacts(tfEntry, symbols[|symbols| - 1], snap, iso, p.baseline);
        if st.0.Some? {
          var bar := st.0.value;
          var es := if entriesRaise(snap, bar.1) then [RunEntries(bar.0, bar.1, snap)]
                    else BarEffects(bar.0, bar.1, snap, bar.2, exitTrade);
          assert forall e :: e in es ==> e.symbol == bar.0 && e.asof == bar.1;
          assert RunPass(tfEntry, symbols, snaps, iso, exitTrade, entriesRaise, baseline0) == Pass(p.log + es, st.1, entriesRaise(snap, bar.1));
        } else {
          assert RunPass(tfEntry, symbols, snaps, iso, exitTrade, entriesRaise, baseline0) == Pass(p.log, st.1, false);
        }
      }
    }
  }

  /** A pass ends early only on the entries of its last bar, whose label raised. */
  lemma {:induction false} RunPassAborts(tfEntry: int, symbols: seq<string>, snaps: map<string, Snapshot>,
                                        iso: string -> Option<IsoStamp>, exitTrade: bool,
                                        entriesRaise: (Snapshot, real) -> bool, baseline0: map<string, real>)
    ensures var p := RunPass(tfEntry, symbols, snaps, iso, exitTrade, entriesRaise, baseline0);
            p.aborted ==> |p.log| > 0 && p.log[|p.log| - 1].RunEntries? &&
                          entriesRaise(p.log[|p.log| - 1].snapshot, p.log[|p.log| - 1].asof)
    decreases |symbols|
  {
    if symbols != [] {
      RunPassAborts(tfEntry, symbols[..|symbols| - 1], snaps, iso, exitTrade, entriesRaise, baseline0);
    }
  }

  // ---------------------------------------------------------------------
  // Signal dispatch
  // ---------------------------------------------------------------------

  /** What the signal generator returned: a list, a single dict, anything else, or it failed on every signature. */
  datatype GenOutput = GenList(items: seq<Record>) | GenDict(sig: Record) | GenOther | GenFailed

  /**
   * Which collaborators are wired in, and which of their entry points are
   * callable.  `placeCallable`: the broker has a callable
   * `place_market_order`, `place_order` or `open_position` (the candle
   * path looks all three up); `placeMarketOrder`: it has
   * `place_market_order` (the tick path calls it without looking).  The
   * broker class of the repository (app/execution/broker.py) has neither.
   */
  datatype Wiring = Wiring(
    exitTrade: bool,
    tradingService: bool,
    serviceProcess: bool,
    enterTrade: bool,
    enterCallable: bool,
    broker: bool,
    placeCallable: bool,
    placeMarketOrder: bool)

  /** A call the orchestrator makes on a collaborator. */
  datatype Call =
    | UpdateBias(symbol: string, m5: Option<string>, m15: Option<string>, asof: real)
    | ProcessSignals(signals: seq<Record>)
    | Enter(sig: Record)
    | Place(symbol: string, side: string)

  function Get(sig: Record, key: string): Value {
    if key in sig.Fields() then sig.Fields()[key] else VNone
  }

  /** Keeps the dicts. */
  function Dicts(items: seq<Record>): (r: seq<Record>)
    ensures forall s :: s in r <==> s in items && s.Dict?
  {
    if items == [] then [] else (if items[0].Dict? then [items[0]] else []) + Dicts(items[1..])
  }

  /** The generator output normalised to a list of dict signals; None when it is of another type. */
  function Normalize(out: GenOutput): (r: Option<seq<Record>>)
    ensures out.GenList? ==> r == Some(Dicts(out.items))
    ensures out.GenDict? ==> r == Some([out.sig])
    ensures out.GenOther? || out.GenFailed? ==> r.None?
  {
    match out
    case GenList(items) => Some(Dicts(items))
    case GenDict(s) => Some([s])
    case _ => None
  }

  /** `str(v)` when v is not None, as `update_bias` receives it. */
  function OptStr(v: Value): (r: Option<string>)
    ensures v == VNone <==> r.None?
  {
    if v == VNone then None else Some(Str(v))
  }

  /** The `update_bias` calls for the signals that carry a symbol. */
  function BiasCalls(signals: seq<Record>, asof: real): (cs: seq<Call>)
    ensures forall c :: c in cs ==> c.UpdateBias? && c.asof == asof
    ensures forall s :: s in signals && Truthy(Get(s, "symbol")) ==>
              UpdateBias(Str(Get(s, "symbol")), OptStr(Get(s, "m5_confirm")), OptStr(Get(s, "m15_bias")), asof) in cs
    ensures |cs| <= |signals|
  {
    if signals == [] then []
    else
      var s := signals[0];
      (if Truthy(Get(s, "symbol"))
       then [UpdateBias(Str(Get(s, "symbol")), OptStr(Get(s, "m5_confirm")), OptStr(Get(s, "m15_bias")), asof)]
       else []) + BiasCalls(signals[1..], asof)
  }

  /** `(sig.get("final_signal") or "hold").lower()`; a truthy non-string raises. */
  function FinalLabel(v: Value): (r: Try<string>)
    ensures !Truthy(v) ==> r == Ok("hold")
    ensures Truthy(v) && v.VStr? ==> r == Ok(Lower(v.s))
    ensures Truthy(v) && !v.VStr? ==> r.Raised?
  {
    if !Truthy(v) then Ok("hold") else if v.VStr? then Ok(Lower(v.s)) else Raised
  }

  /** `sig.get("pullback_completed", True)`, by truthiness. */
  predicate PulledBack(sig: Record) {
    "pullback_completed" !in sig.Fields() || Truthy(sig.Fields()["pullback_completed"])
  }

  /** A signal the direct path acts on: a symbol and a buy or sell decision. */
  predicate Actionable(sig: Record) {
    Truthy(Get(sig, "symbol")) && FinalLabel(Get(sig, "final_signal")) in {Ok("buy"), Ok("sell")}
  }

  /**
   * A call of the direct path: an entry of an actionable, pulled-back
   * signal, or a broker order for one, on its side.
   */
  predicate DirectCall(c: Call, signals: seq<Record>, w: Wiring) {
    (c.Enter? && c.sig in signals && Actionable(c.sig) && PulledBack(c.sig) && w.enterTrade) ||
    (c.Place? && w.broker && c.side in {"buy", "sell"} &&
     exists s :: s in signals && Actionable(s) && PulledBack(s) && c.symbol == Str(Get(s, "symbol")) &&
                 FinalLabel(Get(s, "final_signal")) == Ok(c.side))
  }

  /** `p` is `p0` with some actionable, not yet pulled-back signals parked under their symbol. */
  predicate Parked(p0: map<Value, Record>, p: map<Value, Record>, signals: seq<Record>) {
    p.Keys >= p0.Keys &&
    forall k :: k in p ==>
      (k in p0 && p[k] == p0[k]) ||
      (p[k] in signals && Actionable(p[k]) && !PulledBack(p[k]) && Get(p[k], "symbol") == k)
  }

  /**
   * The calls the direct path makes for one signal that does not raise: an
   * actionable, pulled-back signal is entered when the entry callable
   * exists, and goes to the broker when it was not entered (no callable,
   * or the entry raised) and the broker can place.
   */
  function SignalCalls(sig: Record, w: Wiring, entered: Record -> bool): (cs: seq<Call>)
    ensures cs != [] ==> Actionable(sig) && PulledBack(sig)
    ensures Actionable(sig) && PulledBack(sig) && w.enterTrade && w.enterCallable ==> Enter(sig) in cs
    ensures forall c :: c in cs ==> DirectCall(c, [sig], w)
    ensures FinalLabel(Get(sig, "final_signal")).Ok? ==>
              ((Actionable(sig) && PulledBack(sig) && !(w.enterTrade && w.enterCallable && entered(sig)) &&
                w.broker && w.placeCallable) <==>
               Place(Str(Get(sig, "symbol")), FinalLabel(Get(sig, "final_signal")).value) in cs)
  {
    if !(Actionable(sig) && PulledBack(sig)) then []
    else
      var enter := w.enterTrade && w.enterCallable;
      (if enter then [Enter(sig)] else []) +
      (if !(enter && entered(sig)) && w.broker && w.placeCallable
       then [Place(Str(Get(sig, "symbol")), FinalLabel(Get(sig, "final_signal")).value)] else [])
  }

  /** What the direct path has done so far: its calls, the parked signals, and whether it raised. */
  datatype Dispatch = Dispatch(calls: seq<Call>, pending: map<Value, Record>, raised: bool)

  /**
   * The direct path over `signals` as a function: signals are handled in
   * order; an actionable signal whose pullback is not complete replaces
   * whatever was parked for its symbol; the first truthy non-text
   * `final_signal` raises and ends the pass.
   */
  function Direct(signals: seq<Record>, w: Wiring, entered: Record -> bool, pending0: map<Value, Record>): Dispatch
    decreases |signals|
  {
    if signals == [] then Dispatch([], pending0, false)
    else
      var d := Direct(signals[..|signals| - 1], w, entered, pending0);
      var sig := signals[|signals| - 1];
      if d.raised then d
      else if FinalLabel(Get(sig, "final_signal")).Raised? then Dispatch(d.calls, d.pending, true)
      else if Actionable(sig) && !PulledBack(sig) then Dispatch(d.calls, d.pending[Get(sig, "symbol") := sig], false)
      else Dispatch(d.calls + SignalCalls(sig, w, entered), d.pending, false)
  }

  /** `DirectCall` only grows with the signals it may draw on. */
  lemma DirectCallWidens(c: Call, signals: seq<Record>, more: seq<Record>, w: Wiring)
    requires DirectCall(c, signals, w)
    requires forall s :: s in signals ==> s in more
    ensures DirectCall(c, more, w)
  {
  }

  /** What the direct path keeps: only its own calls, only parked actionable signals, and a raise exactly when some label raises. */
  lemma DirectFacts(signals: seq<Record>, w: Wiring, entered: Record -> bool, pending0: map<Value, Record>)
    ensures var d := Direct(signals, w, entered, pending0);
            (forall c :: c in d.calls ==> DirectCall(c, signals, w)) &&
            Parked(pending0, d.pending, signals) &&
            (d.raised <==> exists j :: 0 <= j < |signals| && FinalLabel(Get(signals[j], "final_signal")).Raised?)
    ensures var d := Direct(signals, w, entered, pending0);
            !d.raised ==> forall j :: 0 <= j < |signals| && Actionable(signals[j]) && !PulledBack(signals[j]) ==>
                            Get(signals[j], "symbol") in d.pending
  {
    DirectCallsDrawn(signals, w, entered, pending0);
    DirectParked(signals, w, entered, pending0);
    DirectRaises(signals, w, entered, pending0);
    DirectParksAll(signals, w, entered, pending0);
  }

  /** Every call of the direct path is one a signal of the pass asks for. */
  lemma {:induction false} DirectCallsDrawn(signals: seq<Record>, w: Wiring, entered: Record -> bool,
                                            pending0: map<Value, Record>)
    ensures forall c :: c in Direct(signals, w, entered, pending0).calls ==> DirectCall(c, signals, w)
    decreases |signals|
  {
    if signals != [] {
      var init := signals[..|signals| - 1];
      var last := signals[|signals| - 1];
      DirectCallsDrawn(init, w, entered, pending0);
      var d := Direct(init, w, entered, pending0);
      assert forall s :: s in init ==> s in signals;
      forall c | c in d.calls ensures DirectCall(c, signals, w) {
        DirectCallWidens(c, init, signals, w);
      }
      forall c | c in SignalCalls(last, w, entered) ensures DirectCall(c, signals, w) {
        DirectCallWidens(c, [last], signals, w);
      }
    }
  }

  /** The direct path only adds to `pending`, and only actionable signals of the pass still waiting for their pullback. */
  lemma {:induction false} DirectParked(signals: seq<Record>, w: Wiring, entered: Record -> bool,
                                        pending0: map<Value, Record>)
    ensures Parked(pending0, Direct(signals, w, entered, pending0).pending, signals)
    decreases |signals|
  {
    if signals != [] {
      var init := signals[..|signals| - 1];
      var last := signals[|signals| - 1];
      DirectParked(init, w, entered, pending0);
      var p0 := Direct(init, w, entered, pending0).pending;
      var p := Direct(signals, w, entered, pending0).pending;
      assert p == p0 || (Actionable(last) && !PulledBack(last) && p == p0[Get(last, "symbol") := last]);
      forall k | k in p
        ensures (k in pending0 && p[k] == pending0[k]) ||
                (p[k] in signals && Actionable(p[k]) && !PulledBack(p[k]) && Get(p[k], "symbol") == k)
      {
        if k in p0 && p[k] == p0[k] && p0[k] in init {
          assert init <= signals;
        }
      }
    }
  }

  /** The direct path raises exactly when some signal's `final_signal` is truthy and not text. */
  lemma {:induction false} DirectRaises(signals: seq<Record>, w: Wiring, entered: Record -> bool,
                                        pending0: map<Value, Record>)
    ensures Direct(signals, w, entered, pending0).raised <==>
            exists j :: 0 <= j < |signals| && FinalLabel(Get(signals[j], "final_signal")).Raised?
    decreases |signals|
  {
    if signals != [] {
      var n := |signals| - 1;
      var init := signals[..n];
      DirectRaises(init, w, entered, pending0);
      var d := Direct(init, w, entered, pending0);
      assert Direct(signals, w, entered, pending0).raised ==
             (d.raised || FinalLabel(Get(signals[n], "final_signal")).Raised?);
      if d.raised {
        var j :| 0 <= j < |init| && FinalLabel(Get(init[j], "final_signal")).Raised?;
        assert signals[j] == init[j];
      } else {
        forall j | 0 <= j < n ensures !FinalLabel(Get(signals[j], "final_signal")).Raised? {
          assert signals[j] == init[j];
        }
      }
    }
  }

  /** A pass that does not raise parks something under the symbol of every signal still waiting for its pullback. */
  lemma {:induction false} DirectParksAll(signals: seq<Record>, w: Wiring, entered: Record -> bool,
                                          pending0: map<Value, Record>)
    ensures !Direct(signals, w, entered, pending0).raised ==>
              forall j :: 0 <= j < |signals| && Actionable(signals[j]) && !PulledBack(signals[j]) ==>
                Get(signals[j], "symbol") in Direct(signals, w, entered, pending0).pending
    decreases |signals|
  {
    if signals != [] {
      var init := signals[..|signals| - 1];
      DirectParksAll(init, w, entered, pending0);
      assert forall j :: 0 <= j < |init| ==> signals[j] == init[j];
    }
  }

  /** Once the direct path has raised, later signals change nothing. */
  lemma {:induction false} DirectStops(signals: seq<Record>, w: Wiring, entered: Record -> bool,
                                       pending0: map<Value, Record>, i: int)
    requires 0 <= i <= |signals|
    requires Direct(signals[..i], w, entered, pending0).raised
    ensures Direct(signals, w, entered, pending0) == Direct(signals[..i], w, entered, pending0)
    decreases |signals| - i
  {
    if i == |signals| {
      assert signals[..i] == signals;
    } else {
      assert signals[..i + 1][..i] == signals[..i];
      DirectStops(signals, w, entered, pending0, i + 1);
    }
  }

  /**
   * A pass that does not raise makes every call each signal asks for: the
   * calls of each signal, in order, follow those of the signals before it.
   */
  lemma {:induction false} DirectComplete(signals: seq<Record>, w: Wiring, entered: Record -> bool,
                                          pending0: map<Value, Record>)
    requires !Direct(signals, w, entered, pending0).raised
    ensures forall j :: 0 <= j < |signals| ==>
              forall c :: c in SignalCalls(signals[j], w, entered) ==> c in Direct(signals, w, entered, pending0).calls
    ensures forall j :: 0 <= j < |signals| ==> !FinalLabel(Get(signals[j], "final_signal")).Raised?
    decreases |signals|
  {
    if signals != [] {
      var n := |signals| - 1;
      var init := signals[..n];
      var d := Direct(init, w, entered, pending0);
      var last := signals[n];
      var calls := Direct(signals, w, entered, pending0).calls;
      assert !d.raised && !FinalLabel(Get(last, "final_signal")).Raised?;
      DirectComplete(init, w, entered, pending0);
      if Actionable(last) && !PulledBack(last) {
        assert SignalCalls(last, w, entered) == [];
        assert calls == d.calls;
      } else {
        assert calls == d.calls + SignalCalls(last, w, entered);
      }
      forall j, c | 0 <= j < |signals| && c in SignalCalls(signals[j], w, entered) ensures c in calls {
        if j < n {
          assert signals[j] == init[j];
        }
      }
    }
    DirectRaises(signals, w, entered, pending0);
  }

  /**
   * The last parked signal for a symbol wins: when signal `j` is parked and
   * no later signal is parked under the same symbol, `pending` holds `j`
   * for that symbol after a pass that does not raise.
   */
  lemma {:induction false} LastParkedWins(signals: seq<Record>, w: Wiring, entered: Record -> bool,
                                          pending0: map<Value, Record>, j: int)
    requires !Direct(signals, w, entered, pending0).raised
    requires 0 <= j < |signals| && Actionable(signals[j]) && !PulledBack(signals[j])
    requires forall k :: j < k < |signals| && Actionable(signals[k]) && !PulledBack(signals[k]) ==>
               Get(signals[k], "symbol") != Get(signals[j], "symbol")
    ensures Get(signals[j], "symbol") in Direct(signals, w, entered, pending0).pending
    ensures Direct(signals, w, entered, pending0).pending[Get(signals[j], "symbol")] == signals[j]
    decreases |signals|
  {
    var init := signals[..|signals| - 1];
    if j < |signals| - 1 {
      assert forall k :: 0 <= k < |init| ==> signals[k] == init[k];
      LastParkedWins(init, w, entered, pending0, j);
    }
  }

  class SignalOrchestrator {
    /** `_running`. */
    var running: bool
    /** How often the collector (and the tick wiring) has been started. */
    var starts: nat
    /** `_last_closed_time_by_symbol`, as UTC epoch seconds. */
    var lastClosed: map<string, real>
    /** `pending_entries`: directional signals waiting for their pullback, by symbol. */
    var pending: map<Value, Record>
    /** The entry timeframe. */
    const tfEntry: int

    constructor(tfEntry: int, pending: map<Value, Record>)
      ensures this.tfEntry == tfEntry && this.pending == pending
      ensures !running && starts == 0 && lastClosed == map[]
    {
      this.tfEntry := tfEntry;
      this.pending := pending;
      running := false;
      starts := 0;
      lastClosed := map[];
    }

    /** `start`: does nothing while running; otherwise starts the collector and the loop once. */
    method Start()
      modifies this
      ensures running
      ensures old(running) ==> starts == old(starts)
      ensures !old(running) ==> starts == old(starts) + 1
      ensures lastClosed == old(lastClosed) && pending == old(pending)
    {
      if running {
        return;
      }
      starts := starts + 1;
      running := true;
    }

    /** `stop`. */
    method Stop()
      modifies this
      ensures !running
      ensures starts == old(starts) && lastClosed == old(lastClosed) && pending == old(pending)
    {
      running := false;
    }

    /**
     * One symbol of `_run`: find the last closed bar of the entry
     * timeframe and its time, resolve the symbol, and apply the baseline
     * rule; the bar fires only when it is strictly newer than the baseline.
     */
    method StepSymbol(symbol: string, snap: Snapshot, iso: string -> Option<IsoStamp>)
      returns (fired: Option<(string, real, Record)>)
      modifies this
      ensures (fired, lastClosed) == Step(tfEntry, symbol, snap, iso, old(lastClosed))
      ensures var c := LastClosedCandle(ExtractTfCandles(snap, tfEntry));
              var t := CandleTime(c, iso);
              var sym := ResolveSymbol(c, symbol);
              if t.None? || sym.None? then fired.None? && lastClosed == old(lastClosed)
              else fired.Some? == Advance(old(lastClosed), sym.value, t.value).0 &&
                   lastClosed == Advance(old(lastClosed), sym.value, t.value).1 &&
                   (fired.Some? ==> fired.value == (sym.value, t.value, c.value))
      ensures running == old(running) && pending == old(pending) && starts == old(starts)
    {
      var c := LastClosedCandle(ExtractTfCandles(snap, tfEntry));
      var t := CandleTime(c, iso);
      if t.None? {
        return None;
      }
      var sym := ResolveSymbol(c, symbol);
      if sym.None? {
        return None;
      }
      var r := Advance(lastClosed, sym.value, t.value);
      lastClosed := r.1;
      if r.0 {
        return Some((sym.value, t.value, c.value));
      }
      return None;
    }

    /**
     * One iteration of `_run` over `symbols`: every strictly newer closed
     * bar runs the entries and then the candle-close exits for its symbol;
     * entries that raise (`entriesRaise`) end the iteration.  Baselines
     * never move backwards, and every bar worked on is newer than the
     * baseline its symbol had before.  Also says how long the loop then
     * sleeps: one second after an exception.
     */
    method RunOnce(symbols: seq<string>, snaps: map<string, Snapshot>, iso: string -> Option<IsoStamp>,
                   w: Wiring, entriesRaise: (Snapshot, real) -> bool, pollSleep: real)
      returns (log: seq<Effect>, aborted: bool, sleep: real)
      modifies this
      ensures var p := RunPass(tfEntry, symbols, snaps, iso, w.exitTrade, entriesRaise, old(lastClosed));
              log == p.log && lastClosed == p.baseline && aborted == p.aborted
      // An exception comes from the entries of the last bar, which then has no candle-close exits.
      ensures aborted ==> |log| > 0 && log[|log| - 1].RunEntries? && entriesRaise(log[|log| - 1].snapshot, log[|log| - 1].asof)
      ensures EntriesBeforeExits(log)
      ensures forall s :: s in old(lastClosed) ==> s in lastClosed && lastClosed[s] >= old(lastClosed)[s]
      ensures forall e :: e in log ==> e.symbol in lastClosed && lastClosed[e.symbol] >= e.asof
      ensures forall e :: e in log && e.symbol in old(lastClosed) ==> e.asof > old(lastClosed)[e.symbol]
      ensures symbols == [] ==> log == [] && lastClosed == old(lastClosed)
      ensures sleep == (if aborted then 1.0 else if log != [] then 0.1 else pollSleep)
      ensures running == old(running) && pending == old(pending) && starts == old(starts)
    {
      log := [];
      aborted := false;
      var i := 0;
      while i < |symbols|
        invariant 0 <= i <= |symbols|
        invariant running == old(running) && pending == old(pending) && starts == old(starts)
        invariant RunPass(tfEntry, symbols[..i], snaps, iso, w.exitTrade, entriesRaise, old(lastClosed)) ==
                  Pass(log, lastClosed, false)
      {
        var snap := SnapOf(snaps, symbols[i]);
        assert symbols[..i + 1][..i] == symbols[..i];
        var fired := StepSymbol(symbols[i], snap, iso);
        if fired.Some? {
          var (sym, t, c) := fired.value;
          if entriesRaise(snap, t) {
            log := log + [RunEntries(sym, t, snap)];
            aborted := true;
            RunPassStops(tfEntry, symbols, snaps, iso, w.exitTrade, entriesRaise, old(lastClosed), i + 1);
            RunPassFacts(tfEntry, symbols, snaps, iso, w.exitTrade, entriesRaise, old(lastClosed));
            sleep := 1.0;
            return;
          }
          log := log + BarEffects(sym, t, snap, c, w.exitTrade);
        }
        i := i + 1;
      }
      assert symbols[..i] == symbols;
      RunPassFacts(tfEntry, symbols, snaps, iso, w.exitTrade, entriesRaise, old(lastClosed));
      sleep := if log != [] then 0.1 else pollSleep;
    }

    /**
     * `_run_entries` once the generator has answered: the signals are
     * normalised to dicts; each one with a symbol updates the exit engine's
     * bias (when one is wired); then either the trading service receives
     * all of them, or each signal goes through the direct path.
     */
    method DispatchSignals(out: GenOutput, asof: real, w: Wiring, entered: Record -> bool)
      returns (calls: seq<Call>, raised: bool)
      modifies this
      ensures Normalize(out).None? || Normalize(out) == Some([]) ==>
                calls == [] && !raised && pending == old(pending)
      ensures Normalize(out).Some? && Normalize(out).value != [] && w.exitTrade ==>
                BiasCalls(Normalize(out).value, asof) <= calls
      ensures Normalize(out).Some? && Normalize(out).value != [] && w.tradingService ==>
                !raised && pending == old(pending) &&
                calls == (if w.exitTrade then BiasCalls(Normalize(out).value, asof) else []) +
                         (if w.serviceProcess then [ProcessSignals(Normalize(out).value)] else [])
      ensures Normalize(out).Some? ==>
                forall c :: c in calls && !c.UpdateBias? && !w.tradingService ==> DirectCall(c, Normalize(out).value, w)
      ensures Normalize(out).Some? ==> Parked(old(pending), pending, Normalize(out).value)
      // Without a trading service, the direct path runs when an entry or a broker is wired, and nothing else happens.
      ensures Normalize(out).Some? && Normalize(out).value != [] && !w.tradingService ==>
                var d := Direct(Normalize(out).value, w, entered, old(pending));
                var direct := w.enterTrade || w.broker;
                calls == (if w.exitTrade then BiasCalls(Normalize(out).value, asof) else []) + (if direct then d.calls else []) &&
                pending == (if direct then d.pending else old(pending)) &&
                raised == (direct && d.raised)
      ensures raised <==>
                Normalize(out).Some? && !w.tradingService && (w.enterTrade || w.broker) &&
                exists s :: s in Normalize(out).value && FinalLabel(Get(s, "final_signal")).Raised?
      ensures lastClosed == old(lastClosed) && running == old(running) && starts == old(starts)
    {
      calls := [];
      raised := false;
      var norm := Normalize(out);
      if norm.None? || norm.value == [] {
        return;
      }
      var signals := norm.value;
      if w.exitTrade {
        calls := BiasCalls(signals, asof);
      }
      if w.tradingService {
        if w.serviceProcess {
          calls := calls + [ProcessSignals(signals)];
        }
        return;
      }
      if !w.enterTrade && !w.broker {
        return;
      }
      var direct;
      direct, raised := DispatchDirect(signals, w, entered);
      calls := calls + direct;
    }

    /**
     * The direct path of `_run_entries`: each buy/sell signal with a symbol
     * is either parked in `pending` (pullback not completed; the last one
     * for a symbol wins) or entered, falling back to the broker when there
     * is no entry callable or the entry raised (`entered` says which entries
     * return normally).  A truthy `final_signal` that is not text raises and
     * ends the pass.
     */
    method DispatchDirect(signals: seq<Record>, w: Wiring, entered: Record -> bool)
      returns (calls: seq<Call>, raised: bool)
      modifies this
      ensures forall c :: c in calls ==> DirectCall(c, signals, w)
      ensures Parked(old(pending), pending, signals)
      ensures !raised ==> forall s :: s in signals && Actionable(s) && !PulledBack(s) ==> Get(s, "symbol") in pending
      ensures raised <==> exists s :: s in signals && FinalLabel(Get(s, "final_signal")).Raised?
      ensures Dispatch(calls, pending, raised) == Direct(signals, w, entered, old(pending))
      ensures lastClosed == old(lastClosed) && running == old(running) && starts == old(starts)
    {
      calls := [];
      raised := false;
      var i := 0;
      while i < |signals|
        invariant 0 <= i <= |signals|
        invariant Direct(signals[..i], w, entered, old(pending)) == Dispatch(calls, pending, false)
        invariant lastClosed == old(lastClosed) && running == old(running) && starts == old(starts)
      {
        var sig := signals[i];
        var symbol := Get(sig, "symbol");
        var fin := FinalLabel(Get(sig, "final_signal"));
        assert signals[..i + 1][..i] == signals[..i];
        if fin.Raised? {
          raised := true;
          DirectStops(signals, w, entered, old(pending), i + 1);
          DirectFacts(signals, w, entered, old(pending));
          assert signals[i] in signals;
          return;
        }
        ghost var calls0 := calls;
        if Truthy(symbol) && fin.value in {"buy", "sell"} {
          assert Actionable(sig);
          if !PulledBack(sig) {
            pending := pending[symbol := sig];
          } else {
            var done := false;
            if w.enterTrade && w.enterCallable {
              calls := calls + [Enter(sig)];
              done := entered(sig);
            }
            if !done && w.broker && w.placeCallable {
              calls := calls + [Place(Str(symbol), fin.value)];
            }
            assert calls == calls0 + SignalCalls(sig, w, entered);
          }
        }
        i := i + 1;
      }
      assert signals[..i] == signals;
      DirectFacts(signals, w, entered, old(pending));
      assert forall s :: s in signals ==> exists j :: 0 <= j < |signals| && signals[j] == s;
    }
  }

  // ---------------------------------------------------------------------
  // The tick path
  // ---------------------------------------------------------------------

  /** What `_on_tick` does with one tick. */
  datatype TickPlan = TickPlan(
    exits: seq<ExitAction>,
    /** The price and spread forwarded to the n-tick confirmation, when it listens. */
    feed: Option<(Value, Value)>,
    /** The dispatch of a confirmed signal, if any. */
    entry: Option<Call>)

  /**
   * `_on_tick`: the exit engine's actions (none when it raised or is not
   * wired), the tick forwarded to the n-tick logic (bid, or last when bid
   * is falsy), and a confirmed buy/sell signal routed to the trading
   * service, the entry callable or the broker.  The broker route calls
   * `place_market_order` without looking it up and indexes the signal's
   * symbol by key: it raises when the method or the key is missing.
   */
  function OnTickPlan(w: Wiring, exitResult: Option<Try<seq<ExitAction>>>, tick: Record,
                      listens: bool, confirmed: Option<Record>): (r: Try<TickPlan>)
    ensures r.Ok? && (exitResult.None? || exitResult.value.Raised?) ==> r.value.exits == []
    ensures r.Ok? && exitResult.Some? && exitResult.value.Ok? ==> r.value.exits == exitResult.value.value
    ensures r.Ok? && listens ==>
              r.value.feed == Some((if Truthy(GetAttr(tick, "bid")) then GetAttr(tick, "bid") else GetAttr(tick, "last"),
                                    GetAttr(tick, "spread")))
    ensures r.Ok? && !listens ==> r.value.feed.None?
    ensures r.Ok? && r.value.entry.Some? ==>
              confirmed.Some? && Get(confirmed.value, "final_signal") in {VStr("buy"), VStr("sell")}
    ensures r.Raised? <==>
              confirmed.Some? && Get(confirmed.value, "final_signal") in {VStr("buy"), VStr("sell")} &&
              !(w.tradingService && w.serviceProcess) && !w.enterTrade && w.broker &&
              (!w.placeMarketOrder || "symbol" !in confirmed.value.Fields())
    ensures r.Ok? && r.value.entry.Some? && r.value.entry.value.Place? ==>
              w.placeMarketOrder && r.value.entry.value.side == Get(confirmed.value, "final_signal").s
  {
    var exits := if exitResult.Some? && exitResult.value.Ok? then exitResult.value.value else [];
    var feed := if listens then
                  Some((if Truthy(GetAttr(tick, "bid")) then GetAttr(tick, "bid") else GetAttr(tick, "last"),
                        GetAttr(tick, "spread")))
                else None;
    if confirmed.None? || confirmed.value.Fields() == map[] ||
       Get(confirmed.value, "final_signal") !in {VStr("buy"), VStr("sell")} then
      Ok(TickPlan(exits, feed, None))
    else
      var sig := confirmed.value;
      var fin := Get(sig, "final_signal").s;
      if w.tradingService && w.serviceProcess then Ok(TickPlan(exits, feed, Some(ProcessSignals([sig]))))
      else if w.enterTrade then Ok(TickPlan(exits, feed, if w.enterCallable then Some(Enter(sig)) else None))
      else if w.broker then
        if w.placeMarketOrder && "symbol" in sig.Fields() then
          Ok(TickPlan(exits, feed, Some(Place(Str(sig.Fields()["symbol"]), fin))))
        else Raised
      else Ok(TickPlan(exits, feed, None))
  }
}
