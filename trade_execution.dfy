// The trade executor of the service helpers: it accepts a signal payload in
// any of three shapes, turns each well-formed signal into a buy or sell
// order on the broker, gates exit requests per ticket with a two-second
// debounce, and sanitises broker comments.

module TradeExecution {
  import opened Base

  // ---------------------------------------------------------------------
  // Payloads and signals
  // ---------------------------------------------------------------------

  /** An element of a signal list: a dict, or anything else. */
  datatype Item = IDict(fields: map<string, Value>) | INotDict

  /**
   * What `process_signal` is handed: a list, a dict (with its "signals"
   * entry when that is a list), or anything else.
   */
  datatype Payload = PList(items: seq<Item>) | PDict(fields: map<string, Value>, signalsList: Option<seq<Item>>) | POther

  /** `process_signal`: the list of signals it executes, or None when it executes nothing. */
  function RouteSignal(p: Payload): (r: Option<seq<Item>>)
    ensures p.PList? ==> r == Some(p.items)
    ensures p.PDict? && p.signalsList.Some? ==> r == Some(p.signalsList.value)
    ensures p.PDict? && p.signalsList.None? ==> r == Some([IDict(p.fields)])
    ensures r.None? <==> p.POther?
  {
    match p
    case PList(items) => Some(items)
    case PDict(fields, signalsList) => if signalsList.Some? then signalsList else Some([IDict(fields)])
    case POther => None
  }

  /** `s.get(key)`. */
  function Get(s: map<string, Value>, key: string): Value {
    if key in s then s[key] else VNone
  }

  /** The first truthy value, or `default` (Python's `a or b or ... or default`). */
  function FirstTruthy(vs: seq<Value>, default: Value): (v: Value)
    ensures v == default || v in vs
    ensures v != default ==> Truthy(v)
    ensures (forall i :: 0 <= i < |vs| ==> !Truthy(vs[i])) ==> v == default
  {
    if vs == [] then default
    else if Truthy(vs[0]) then vs[0]
    else FirstTruthy(vs[1..], default)
  }

  /**
   * `v.strip().lower()` compared with a lower-case word. `Lower` and
   * `Strip` fold and trim ASCII only, so a non-ASCII letter or space that
   * Python would fold or trim is kept here.
   */
  predicate Says(v: Value, word: string) {
    v.VStr? && Lower(Strip(v.s)) == word
  }

  /**
   * `_extract_direction`: a "direction" of BUY or SELL in any case wins;
   * otherwise the first truthy of final_signal, signal, side and action
   * (hold when none) decides, and hold or anything unknown gives None.
   */
  function ExtractDirection(s: map<string, Value>): (d: Option<Side>)
    ensures Says(Get(s, "direction"), "buy") ==> d == Some(Buy)
    ensures Says(Get(s, "direction"), "sell") ==> d == Some(Sell)
    ensures !Says(Get(s, "direction"), "buy") && !Says(Get(s, "direction"), "sell") ==>
              var side := FirstTruthy([Get(s, "final_signal"), Get(s, "signal"), Get(s, "side"), Get(s, "action")], VStr("hold"));
              (d == Some(Buy) <==> Says(side, "buy")) && (d == Some(Sell) <==> Says(side, "sell"))
  {
    var direction := Get(s, "direction");
    if Says(direction, "buy") then Some(Buy)
    else if Says(direction, "sell") then Some(Sell)
    else
      var side := FirstTruthy([Get(s, "final_signal"), Get(s, "signal"), Get(s, "side"), Get(s, "action")], VStr("hold"));
      if Says(side, "buy") then Some(Buy)
      else if Says(side, "sell") then Some(Sell)
      else None
  }

  /** A signal that says hold everywhere it is read has no direction. */
  lemma HoldHasNoDirection(s: map<string, Value>)
    requires !Says(Get(s, "direction"), "buy") && !Says(Get(s, "direction"), "sell")
    requires Says(FirstTruthy([Get(s, "final_signal"), Get(s, "signal"), Get(s, "side"), Get(s, "action")], VStr("hold")), "hold")
    ensures ExtractDirection(s).None?
  {
  }

  /** The first candidate that is not None and converts with `float()`. */
  function FirstConvertible(vs: seq<Value>): (r: Option<real>)
    ensures r.Some? ==> exists i :: 0 <= i < |vs| && vs[i] != VNone && FloatOf(vs[i]) == r
    ensures (forall i :: 0 <= i < |vs| ==> vs[i] == VNone || FloatOf(vs[i]).None?) ==> r.None?
  {
    if vs == [] then None
    else if vs[0] != VNone && FloatOf(vs[0]).Some? then FloatOf(vs[0])
    else
      var r := FirstConvertible(vs[1..]);
      assert r.Some? ==> exists i :: 1 <= i < |vs| && vs[i] != VNone && FloatOf(vs[i]) == r by {
        if r.Some? {
          var i :| 0 <= i < |vs[1..]| && vs[1..][i] != VNone && FloatOf(vs[1..][i]) == r;
          assert vs[i + 1] == vs[1..][i];
        }
      }
      r
  }

  /** What the risk manager's lot methods answered, in order: a value, or Raised when both call shapes raised. */
  function Answers(risk: seq<Try<Value>>): (vs: seq<Value>)
    ensures |vs| == |risk|
    ensures forall i :: 0 <= i < |risk| ==> vs[i] == (if risk[i].Ok? then risk[i].value else VNone)
  {
    seq(|risk|, i requires 0 <= i < |risk| => if risk[i].Ok? then risk[i].value else VNone)
  }

  /** The lot when nobody supplies one. */
  const FallbackLot: real := 0.01

  /**
   * `_extract_lot`: an explicit lot wins (None when `float()` refuses it);
   * otherwise the first risk-manager answer, then the first of the
   * configured LOT_SIZE, DEFAULT_LOT and MIN_LOT, that converts; else 0.01.
   */
  function ExtractLot(s: map<string, Value>, risk: seq<Try<Value>>, configLots: seq<Value>): (r: Option<real>)
    ensures Get(s, "lot") != VNone ==> r == FloatOf(Get(s, "lot"))
    ensures Get(s, "lot") == VNone ==> r.Some?
    ensures Get(s, "lot") == VNone && FirstConvertible(Answers(risk) + configLots).None? ==> r == Some(FallbackLot)
  {
    var lot := Get(s, "lot");
    if lot != VNone then FloatOf(lot)
    else Some(FirstConvertible(Answers(risk) + configLots).GetOr(FallbackLot))
  }

  /** The settings define none of LOT_SIZE, DEFAULT_LOT and MIN_LOT. */
  const ConfigLots: seq<Value> := [VNone, VNone, VNone]

  /** With the shipped settings and a risk manager that answers nothing usable, every signal without a lot trades 0.01. */
  lemma DefaultLotIsFallback(s: map<string, Value>, risk: seq<Try<Value>>)
    requires Get(s, "lot") == VNone
    requires forall i :: 0 <= i < |risk| ==> risk[i].Raised? || risk[i].value == VNone
    ensures ExtractLot(s, risk, ConfigLots) == Some(FallbackLot)
  {
    var vs := Answers(risk) + ConfigLots;
    assert forall i :: 0 <= i < |vs| ==> vs[i] == VNone by {
      forall i | 0 <= i < |vs| ensures vs[i] == VNone {
        if i < |risk| {
          assert vs[i] == Answers(risk)[i];
        } else {
          assert vs[i] == ConfigLots[i - |risk|];
        }
      }
    }
  }

  // ---------------------------------------------------------------------
  // Executing signals
  // ---------------------------------------------------------------------

  /** The defaults SL and TP distances fall back to: DEFAULT_SL_PIPS and DEFAULT_TP_PIPS. */
  const DefaultSlPips: real := 2.0
  const DefaultTpPips: real := 50.0

  /**
   * The broker's `calculate_sl_tp_prices(direction, price, sl_pips,
   * tp_pips, symbol, units="pips")`, or None when the broker has none.
   */
  type SlTpFn = (Side, Value, Value, Value, Value) -> Try<(Value, Value)>

  /**
   * What executing signals depends on besides the signals: the SL/TP
   * calculator, what the risk manager answers for a symbol and signal,
   * and the configured lots.
   */
  datatype ExecEnv = ExecEnv(slTp: Option<SlTpFn>, risk: (Value, map<string, Value>) -> seq<Try<Value>>, configLots: seq<Value>)

  /** A `place_buy` / `place_sell` call on the broker. */
  datatype Placement = Placement(symbol: Value, side: Side, lot: real, sl: Value, tp: Value)

  /** What becomes of one signal: skipped, placed, or the SL/TP calculation raised (which ends the whole call). */
  datatype Outcome = Skip | Place(p: Placement) | Abort

  /** One iteration of `execute_signals`. */
  function Plan(item: Item, env: ExecEnv): (o: Outcome)
    ensures o.Place? ==>
              item.IDict? && Truthy(Get(item.fields, "symbol")) &&
              o.p.symbol == Get(item.fields, "symbol") &&
              ExtractDirection(item.fields) == Some(o.p.side) &&
              ExtractLot(item.fields, env.risk(Get(item.fields, "symbol"), item.fields), env.configLots) == Some(o.p.lot)
    ensures item.INotDict? || !Truthy(Get(item.fields, "symbol")) || ExtractDirection(item.fields).None? ==> o == Skip
    ensures o.Abort? ==> env.slTp.Some?
  {
    match item
    case INotDict => Skip
    case IDict(s) =>
      var symbol := Get(s, "symbol");
      if !Truthy(symbol) then Skip
      else match ExtractDirection(s)
        case None => Skip
        case Some(direction) =>
          match ExtractLot(s, env.risk(symbol, s), env.configLots)
          case None => Skip
          case Some(lot) => PlaceWithStops(s, env, symbol, direction, lot)
  }

  /**
   * The order for a signal whose symbol, side and lot are known: SL and TP
   * from the broker's calculator when it has one and the signal has a
   * price, none otherwise; Abort when the calculation raises.
   */
  function PlaceWithStops(s: map<string, Value>, env: ExecEnv, symbol: Value, direction: Side, lot: real): (o: Outcome)
    ensures o.Place? ==> o.p.symbol == symbol && o.p.side == direction && o.p.lot == lot
    ensures o.Abort? ==> env.slTp.Some?
    ensures o != Skip
  {
    var price := FirstTruthy([Get(s, "open_price")], Get(s, "price"));
    var slPips := FirstTruthy([Get(s, "sl_pips")], VReal(DefaultSlPips));
    var tpPips := FirstTruthy([Get(s, "tp_pips")], VReal(DefaultTpPips));
    if env.slTp.Some? && price != VNone then
      match env.slTp.value(direction, price, slPips, tpPips, symbol)
      case Raised => Abort
      case Ok((sl, tp)) => Place(Placement(symbol, direction, lot, sl, tp))
    else Place(Placement(symbol, direction, lot, VNone, VNone))
  }

  /** The orders a run over `signals` places, and whether it ended by raising. */
  function ExecuteSpec(signals: seq<Item>, env: ExecEnv): (r: (seq<Placement>, bool))
    ensures |r.0| <= |signals|
  {
    if signals == [] then ([], false)
    else
      var r := ExecuteSpec(signals[..|signals| - 1], env);
      if r.1 then r else Extend(r.0, Plan(signals[|signals| - 1], env))
  }

  /** The orders so far after one more signal, and whether that signal raised. */
  function Extend(orders: seq<Placement>, o: Outcome): (r: (seq<Placement>, bool))
    ensures r.1 <==> o.Abort?
    ensures o.Place? ==> r.0 == orders + [o.p]
    ensures !o.Place? ==> r.0 == orders
  {
    match o
    case Skip => (orders, false)
    case Abort => (orders, true)
    case Place(p) => (orders + [p], false)
  }

  /** One more signal extends a run that has not raised. */
  lemma ExecuteSpecStep(signals: seq<Item>, env: ExecEnv, i: nat)
    requires i < |signals| && !ExecuteSpec(signals[..i], env).1
    ensures ExecuteSpec(signals[..i + 1], env) == Extend(ExecuteSpec(signals[..i], env).0, Plan(signals[i], env))
  {
    assert signals[..i + 1][..i] == signals[..i];
  }

  /** Once a run has raised, later signals change nothing. */
  lemma {:induction false} AbortIsFinal(signals: seq<Item>, env: ExecEnv, i: nat)
    requires i <= |signals| && ExecuteSpec(signals[..i], env).1
    ensures ExecuteSpec(signals, env) == ExecuteSpec(signals[..i], env)
    decreases |signals| - i
  {
    if i < |signals| {
      assert signals[..i + 1][..i] == signals[..i];
      AbortIsFinal(signals, env, i + 1);
    } else {
      assert signals[..i] == signals;
    }
  }

  /** Every order placed comes from one of the signals, as planned for it. */
  lemma {:induction false} PlacementsComeFromSignals(signals: seq<Item>, env: ExecEnv)
    ensures forall p :: p in ExecuteSpec(signals, env).0 ==>
              exists j :: 0 <= j < |signals| && Plan(signals[j], env) == Place(p)
  {
    if signals != [] {
      var init := signals[..|signals| - 1];
      PlacementsComeFromSignals(init, env);
      forall p | p in ExecuteSpec(signals, env).0
        ensures exists j :: 0 <= j < |signals| && Plan(signals[j], env) == Place(p)
      {
        if p in ExecuteSpec(init, env).0 {
          var j :| 0 <= j < |init| && Plan(init[j], env) == Place(p);
          assert signals[j] == init[j];
        } else {
          assert Plan(signals[|signals| - 1], env) == Place(p);
        }
      }
    }
  }

  /** Signals that are all hold (or malformed) place nothing. */
  lemma {:induction false} NoDirectionNoOrders(signals: seq<Item>, env: ExecEnv)
    requires forall i :: 0 <= i < |signals| ==> signals[i].INotDict? || ExtractDirection(signals[i].fields).None?
    ensures ExecuteSpec(signals, env) == ([], false)
  {
    if signals != [] {
      NoDirectionNoOrders(signals[..|signals| - 1], env);
    }
  }

  // ---------------------------------------------------------------------
  // Exits
  // ---------------------------------------------------------------------

  /** The minimum time between two exit attempts on the same ticket, in seconds. */
  const ExitDebounceSeconds: real := 2.0

  /** Where an exit request ends inside the executor: refused, debounced, or handed to the broker. */
  datatype ExitOutcome = ExitRejected | ExitDebounced | ExitSent

  /**
   * The gate of `execute_exit`: the ticket, volume and symbol attributes
   * of the action (Raised where `float()` refuses the volume); a missing
   * ticket or symbol or a volume <= 0 is refused; an attempt less than two
   * seconds after the last one on the same ticket is debounced; otherwise
   * the attempt time is recorded and the request goes to the broker.
   */
  function ExitGate(last: map<Value, real>, action: Record, now: real): (r: Try<(map<Value, real>, ExitOutcome)>)
    ensures r.Ok? && r.value.1 != ExitSent ==> r.value.0 == last
    ensures r.Ok? && r.value.1 == ExitSent ==> r.value.0 == last[GetAttr(action, "ticket") := now]
    ensures r.Ok? && r.value.1 == ExitSent ==>
              GetAttr(action, "ticket") != VNone && Truthy(GetAttr(action, "symbol")) &&
              (GetAttr(action, "ticket") in last ==> now - last[GetAttr(action, "ticket")] >= ExitDebounceSeconds)
    ensures r.Ok? && r.value.1 == ExitDebounced ==>
              GetAttr(action, "ticket") in last && now - last[GetAttr(action, "ticket")] < ExitDebounceSeconds
    ensures r.Raised? <==> Truthy(GetAttr(action, "volume")) && FloatOf(GetAttr(action, "volume")).None?
  {
    var rawVolume := GetAttr(action, "volume");
    var volume := if Truthy(rawVolume) then FloatOf(rawVolume) else Some(0.0);
    if volume.None? then Raised
    else
      var ticket := GetAttr(action, "ticket");
      if ticket == VNone || !Truthy(GetAttr(action, "symbol")) || volume.value <= 0.0 then Ok((last, ExitRejected))
      else if ticket in last && now - last[ticket] < ExitDebounceSeconds then Ok((last, ExitDebounced))
      else Ok((last[ticket := now], ExitSent))
  }

  /** A second attempt on the same ticket within two seconds of one that went out is debounced. */
  lemma SecondAttemptDebounced(last: map<Value, real>, action: Record, t1: real, t2: real)
    requires ExitGate(last, action, t1).Ok? && ExitGate(last, action, t1).value.1 == ExitSent
    requires t1 <= t2 < t1 + ExitDebounceSeconds
    ensures var m := ExitGate(last, action, t1).value.0;
            ExitGate(m, action, t2) == Ok((m, ExitDebounced))
  {
  }

  /** Two seconds later the same request goes out again. */
  lemma AttemptAfterWindowSent(last: map<Value, real>, action: Record, t1: real, t2: real)
    requires ExitGate(last, action, t1).Ok? && ExitGate(last, action, t1).value.1 == ExitSent
    requires t2 >= t1 + ExitDebounceSeconds
    ensures var m := ExitGate(last, action, t1).value.0;
            ExitGate(m, action, t2).Ok? && ExitGate(m, action, t2).value.1 == ExitSent
  {
  }

  // ---------------------------------------------------------------------
  // The executor object
  // ---------------------------------------------------------------------

  /** `TradeExecutor`: the orders it has placed on the broker, and the last exit attempt per ticket. */
  class TradeExecutor {
    var placed: seq<Placement>
    var lastExitAttemptAt: map<Value, real>

    constructor()
      ensures placed == [] && lastExitAttemptAt == map[]
    {
      placed := [];
      lastExitAttemptAt := map[];
    }

    /** `execute_signals`; `raised` where the SL/TP calculation raised, which ends the call. */
    method ExecuteSignals(signals: seq<Item>, env: ExecEnv) returns (raised: bool)
      modifies this
      ensures placed == old(placed) + ExecuteSpec(signals, env).0
      ensures raised == ExecuteSpec(signals, env).1
      ensures lastExitAttemptAt == old(lastExitAttemptAt)
    {
      var i := 0;
      while i < |signals|
        invariant 0 <= i <= |signals|
        invariant !ExecuteSpec(signals[..i], env).1
        invariant placed == old(placed) + ExecuteSpec(signals[..i], env).0
        invariant lastExitAttemptAt == old(lastExitAttemptAt)
      {
        var o := Plan(signals[i], env);
        ExecuteSpecStep(signals, env, i);
        if o.Abort? {
          AbortIsFinal(signals, env, i + 1);
          return true;
        }
        if o.Place? {
          placed := placed + [o.p];
        }
        i := i + 1;
      }
      assert signals[..i] == signals;
      return false;
    }

    /** `process_signal`. */
    method ProcessSignal(p: Payload, env: ExecEnv) returns (raised: bool)
      modifies this
      ensures RouteSignal(p).None? ==> placed == old(placed) && !raised
      ensures RouteSignal(p).Some? ==>
                placed == old(placed) + ExecuteSpec(RouteSignal(p).value, env).0 &&
                raised == ExecuteSpec(RouteSignal(p).value, env).1
      ensures lastExitAttemptAt == old(lastExitAttemptAt)
    {
      var route := RouteSignal(p);
      if route.None? {
        return false;
      }
      raised := ExecuteSignals(route.value, env);
    }

    /** The gate of `execute_exit` (the order itself goes to the broker). */
    method ExecuteExit(action: Record, now: real) returns (r: Try<ExitOutcome>)
      modifies this
      ensures ExitGate(old(lastExitAttemptAt), action, now).Raised? ==> r.Raised? && lastExitAttemptAt == old(lastExitAttemptAt)
      ensures ExitGate(old(lastExitAttemptAt), action, now).Ok? ==>
                r == Ok(ExitGate(old(lastExitAttemptAt), action, now).value.1) &&
                lastExitAttemptAt == ExitGate(old(lastExitAttemptAt), action, now).value.0
      ensures placed == old(placed)
    {
      var rawVolume := GetAttr(action, "volume");
      var volume := 0.0;
      if Truthy(rawVolume) {
        var v := FloatOf(rawVolume);
        if v.None? {
          return Raised;
        }
        volume := v.value;
      }
      var ticket := GetAttr(action, "ticket");
      if ticket == VNone || !Truthy(GetAttr(action, "symbol")) || volume <= 0.0 {
        return Ok(ExitRejected);
      }
      if ticket in lastExitAttemptAt && now - lastExitAttemptAt[ticket] < ExitDebounceSeconds {
        return Ok(ExitDebounced);
      }
      lastExitAttemptAt := lastExitAttemptAt[ticket := now];
      return Ok(ExitSent);
    }
  }

  // ---------------------------------------------------------------------
  // Broker comments
  // ---------------------------------------------------------------------

  /** The characters a broker comment keeps: ASCII letters, digits, space, `_`, `:`, `-` and `.`. */
  predicate CommentChar(c: char) {
    'A' <= c <= 'Z' || 'a' <= c <= 'z' || '0' <= c <= '9' || c == ' ' || c == '_' || c == ':' || c == '-' || c == '.'
  }

  /** Dropping non-ASCII characters and then everything outside the kept set: the kept characters in order. */
  function KeepCommentChars(s: string): (r: string)
    ensures |r| <= |s|
    ensures forall i :: 0 <= i < |r| ==> CommentChar(r[i])
    ensures (forall i :: 0 <= i < |s| ==> CommentChar(s[i])) ==> r == s
  {
    if s == [] then []
    else (if CommentChar(s[0]) then [s[0]] else []) + KeepCommentChars(s[1..])
  }

  /** `s[:n]` for any int n (a negative n counts from the end). */
  function SliceTo(s: string, n: int): (r: string)
    ensures |r| <= |s| && r == s[..|r|]
    ensures n >= 0 ==> |r| == (if n < |s| then n else |s|)
    ensures n < 0 ==> |r| == (if |s| + n > 0 then |s| + n else 0)
  {
    if n >= 0 then (if n < |s| then s[..n] else s)
    else if |s| + n > 0 then s[..|s| + n]
    else []
  }

  /**
   * `_safe_mt5_comment`: the kept characters, stripped, "EXIT" when that
   * leaves nothing, cut to `max_len`.
   */
  function SafeComment(text: string, maxLen: int): (r: string)
    ensures forall i :: 0 <= i < |r| ==> CommentChar(r[i])
    ensures maxLen >= 0 ==> |r| <= maxLen
    ensures maxLen >= 1 ==> r != []
    ensures Strip(KeepCommentChars(text)) == [] ==> r == SliceTo("EXIT", maxLen)
    ensures Strip(KeepCommentChars(text)) != [] ==> r == SliceTo(Strip(KeepCommentChars(text)), maxLen)
  {
    var kept := KeepCommentChars(text);
    var s := Strip(kept);
    StripKeepsChars(kept);
    var t := if s == [] then "EXIT" else s;
    var r := SliceTo(t, maxLen);
    assert forall i :: 0 <= i < |r| ==> r[i] == t[i];
    r
  }

  /** Stripping only removes characters from the ends. */
  lemma StripKeepsChars(s: string)
    ensures forall i :: 0 <= i < |Strip(s)| ==> Strip(s)[i] in s
  {
    var l := StripLeft(s);
    var r := StripRight(l);
    assert Strip(s) == r;
    forall i | 0 <= i < |r| ensures r[i] in s {
      assert r[i] == l[i];
      assert l[i] == s[|s| - |l| + i];
    }
  }

  /** A comment that is already safe (kept characters only, no surrounding spaces, not empty, short enough) passes unchanged. */
  lemma SafeCommentFixesSafeText(text: string, maxLen: int)
    requires text != [] && |text| <= maxLen
    requires forall i :: 0 <= i < |text| ==> CommentChar(text[i])
    requires text[0] != ' ' && text[|text| - 1] != ' '
    ensures SafeComment(text, maxLen) == text
  {
    assert KeepCommentChars(text) == text;
    assert CommentChar(text[0]) && CommentChar(text[|text| - 1]);
    StripUnchanged(text);
  }

  /** A string with no space at either end is its own strip. */
  lemma StripUnchanged(s: string)
    requires s != [] && !IsSpace(s[0]) && !IsSpace(s[|s| - 1])
    ensures Strip(s) == s
  {
    assert StripLeft(s) == s;
    assert StripRight(s) == s;
  }
}
