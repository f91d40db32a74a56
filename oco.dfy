// OCO straddles: a buy stop above the ask and a sell stop below the bid,
// registered as a group; each tick the groups are reconciled against the
// broker's pending orders (expiry, one leg gone, both gone).

module Oco {
  import opened Base
  import Broker

  /** Offset and expiry the manager uses when the caller gives none. */
  datatype OcoConfig = OcoConfig(offsetPips: real, expirySeconds: int)

  const DefaultOcoConfig: OcoConfig := OcoConfig(2.0, 120)

  /** Brokers commonly refuse longer order comments. */
  const MaxCommentLength: nat := 31

  /** A registered straddle; `expiresTs == 0` means it never expires. */
  datatype OcoGroup = OcoGroup(
    groupId: string,
    symbol: string,
    volume: real,
    buyTicket: int,
    sellTicket: int,
    createdTs: real,
    expiresTs: real,
    comment: string)

  /** A pending stop order sent to the broker. */
  datatype StopOrder = BuyStop(price: real) | SellStop(price: real)

  // ---------------------------------------------------------------------
  // Price helpers
  // ---------------------------------------------------------------------

  /**
   * `_pips_to_price`: the broker's pip size when it reports a non-zero one,
   * otherwise the pip derived from the symbol info, otherwise 0.01 for JPY
   * symbols and 0.0001 for the rest, times `pips`.
   */
  function PipsToPrice(brokerPip: Option<real>, info: Option<Broker.SymbolInfo>, symbol: string, pips: real): (p: real)
    ensures brokerPip.Some? && brokerPip.value != 0.0 ==> p == brokerPip.value * pips
    ensures (brokerPip.None? || brokerPip.value == 0.0) ==> p == Broker.PipSize(info, symbol) * pips
  {
    if brokerPip.Some? && brokerPip.value != 0.0 then brokerPip.value * pips
    else Broker.PipSize(info, symbol) * pips
  }

  /** Without a broker pip or symbol info, a positive offset in pips is a positive price distance. */
  lemma FallbackOffsetPositive(symbol: string, pips: real)
    requires pips > 0.0
    ensures PipsToPrice(None, None, symbol, pips) > 0.0
  {
    assert Broker.PipSize(None, symbol) > 0.0;
  }

  /**
   * `_min_stop_distance_price`: the larger of the stops and freeze levels,
   * in points, when both the point and that level are positive; otherwise 0.
   */
  function MinStopDistancePrice(info: Option<Broker.SymbolInfo>): (d: real)
    ensures d >= 0.0
    ensures info.None? ==> d == 0.0
    ensures info.Some? && d > 0.0 ==>
              d == (if info.value.stopsLevel >= info.value.freezeLevel then info.value.stopsLevel else info.value.freezeLevel) as real
                   * info.value.point
  {
    match info
    case None => 0.0
    case Some(si) =>
      var level := if si.stopsLevel >= si.freezeLevel then si.stopsLevel else si.freezeLevel;
      if si.point > 0.0 && level > 0 then
        assert level as real * si.point > 0.0 by { PositiveProduct(level as real, si.point); }
        level as real * si.point
      else 0.0
  }

  lemma PositiveProduct(a: real, b: real)
    requires a > 0.0 && b > 0.0
    ensures a * b > 0.0
  {
  }

  /**
   * `_normalize_price` of the straddle manager: unchanged without symbol
   * info; otherwise rounded to the symbol's digits, where 0 digits reads
   * as 5 and a negative count reads as 0.
   */
  function OcoNormalizePrice(info: Option<Broker.SymbolInfo>, x: real): (r: real)
    ensures info.None? ==> r == x
  {
    match info
    case None => x
    case Some(si) =>
      var d := if si.digits == 0 then 5 else si.digits;
      Broker.RoundDigits(x, if d < 0 then 0 else d)
  }

  /** `comment_prefix:group_id`, cut to the broker's comment limit. */
  function GroupComment(prefix: string, groupId: string): (c: string)
    ensures |c| <= MaxCommentLength
    ensures |c| <= |prefix + ":" + groupId| && c == (prefix + ":" + groupId)[..|c|]
    ensures |prefix + ":" + groupId| <= MaxCommentLength ==> c == prefix + ":" + groupId
  {
    var full := prefix + ":" + groupId;
    if |full| > MaxCommentLength then full[..MaxCommentLength] else full
  }

  /** The expiry stamp: `now + seconds` when positive, otherwise 0 (never expires). */
  function ExpiryStamp(now: real, seconds: int): (e: real)
    ensures seconds > 0 ==> e == now + seconds as real
    ensures seconds <= 0 ==> e == 0.0
  {
    if seconds > 0 then now + seconds as real else 0.0
  }

  // ---------------------------------------------------------------------
  // Placing a straddle
  // ---------------------------------------------------------------------

  /** The two stop prices of a straddle: ask plus the offset, bid minus the offset. */
  function StraddlePrices(bid: real, ask: real, off: real): (r: (real, real))
    ensures r.0 - r.1 == (ask - bid) + 2.0 * off
    ensures off > 0.0 && ask >= bid ==> r.0 > ask && r.1 < bid && r.0 > r.1
  {
    (ask + off, bid - off)
  }

  /** The offset actually used: the requested one, raised to the minimum stop distance. */
  function EffectiveOffset(off: real, minStop: real): (o: real)
    ensures o >= off
    ensures minStop > 0.0 ==> o >= minStop
    ensures o == off || o == minStop
  {
    if minStop > 0.0 && off < minStop then minStop else off
  }

  /** What the broker answers while a straddle is being placed. */
  datatype PlaceEnv = PlaceEnv(
    selectOk: bool,
    quote: Option<Broker.Quote>,
    brokerPip: Option<real>,
    info: Option<Broker.SymbolInfo>,
    groupId: string,
    now: real,
    buyTicket: Option<int>,
    sellTicket: Option<int>)

  /** The validated inputs of a straddle: symbol, volume, quote and positive offset. */
  predicate PlaceableInputs(cfg: OcoConfig, symbol: string, volume: Option<real>, offsetPips: Option<real>, env: PlaceEnv) {
    symbol != "" && volume.Some? && volume.value > 0.0 && env.selectOk && env.quote.Some? &&
    env.quote.value.bid > 0.0 && env.quote.value.ask > 0.0 &&
    PipsToPrice(env.brokerPip, env.info, symbol, offsetPips.GetOr(cfg.offsetPips)) > 0.0
  }

  class OcoStraddleManager {
    const cfg: OcoConfig
    /** `_groups`, by group id. */
    var groups: map<string, OcoGroup>

    constructor(cfg: OcoConfig)
      ensures this.cfg == cfg && groups == map[]
    {
      this.cfg := cfg;
      groups := map[];
    }

    /**
     * `place_straddle`: validates the request, sends a buy stop at
     * ask + offset and a sell stop at bid - offset (the offset raised to the
     * broker's minimum stop distance), and registers the group only when
     * both legs are placed; when the sell leg fails, the buy leg is
     * cancelled again.
     */
    method PlaceStraddle(symbol: string, volume: Option<real>, offsetPips: Option<real>, expirySeconds: Option<int>,
                         prefix: string, env: PlaceEnv)
      returns (g: Option<OcoGroup>, sent: seq<StopOrder>, cancelled: seq<int>)
      modifies this
      ensures !PlaceableInputs(cfg, symbol, volume, offsetPips, env) ==> g.None? && sent == [] && cancelled == [] && groups == old(groups)
      ensures g.Some? <==> PlaceableInputs(cfg, symbol, volume, offsetPips, env) && env.buyTicket.Some? && env.sellTicket.Some?
      ensures g.Some? ==> groups == old(groups)[env.groupId := g.value]
      ensures g.None? ==> groups == old(groups)
      ensures g.Some? ==>
                var off := EffectiveOffset(PipsToPrice(env.brokerPip, env.info, symbol, offsetPips.GetOr(cfg.offsetPips)),
                                           MinStopDistancePrice(env.info));
                var q := env.quote.value;
                g.value == OcoGroup(env.groupId, symbol, volume.value, env.buyTicket.value, env.sellTicket.value, env.now,
                                    ExpiryStamp(env.now, expirySeconds.GetOr(cfg.expirySeconds)),
                                    GroupComment(prefix, env.groupId)) &&
                sent == [BuyStop(OcoNormalizePrice(env.info, q.ask + off)), SellStop(OcoNormalizePrice(env.info, q.bid - off))]
      ensures PlaceableInputs(cfg, symbol, volume, offsetPips, env) && env.buyTicket.Some? && env.sellTicket.None? ==>
                cancelled == [env.buyTicket.value]
      ensures g.Some? ==> cancelled == []
    {
      sent := [];
      cancelled := [];
      if !PlaceableInputs(cfg, symbol, volume, offsetPips, env) {
        return None, sent, cancelled;
      }
      var q := env.quote.value;
      var off := PipsToPrice(env.brokerPip, env.info, symbol, offsetPips.GetOr(cfg.offsetPips));
      off := EffectiveOffset(off, MinStopDistancePrice(env.info));
      var buyPrice := OcoNormalizePrice(env.info, q.ask + off);
      var sellPrice := OcoNormalizePrice(env.info, q.bid - off);
      var grp := OcoGroup(env.groupId, symbol, volume.value, 0, 0, env.now,
                          ExpiryStamp(env.now, expirySeconds.GetOr(cfg.expirySeconds)),
                          GroupComment(prefix, env.groupId));
      sent := sent + [BuyStop(buyPrice)];
      if env.buyTicket.None? {
        return None, sent, cancelled;
      }
      sent := sent + [SellStop(sellPrice)];
      if env.sellTicket.None? {
        cancelled := cancelled + [env.buyTicket.value];
        return None, sent, cancelled;
      }
      grp := grp.(buyTicket := env.buyTicket.value, sellTicket := env.sellTicket.value);
      groups := groups[env.groupId := grp];
      return Some(grp), sent, cancelled;
    }

    /**
     * `on_tick`: reconcile every group with the broker's pending orders
     * `alive` at `now`.  A group stays, unchanged, exactly when it has not
     * expired and both legs are still pending; every other group is removed
     * and its still-pending legs are cancelled.
     */
    method OnTick(now: real, alive: set<int>) returns (cancelled: set<int>)
      modifies this
      ensures groups.Keys <= old(groups).Keys
      ensures forall id :: id in old(groups) ==> (id in groups <==> Reconcile(old(groups)[id], now, alive).0)
      ensures forall id :: id in groups ==> groups[id] == old(groups)[id]
      ensures forall id :: id in old(groups) ==> Reconcile(old(groups)[id], now, alive).1 <= cancelled
      ensures forall t :: t in cancelled ==>
                exists id :: id in old(groups) && t in Reconcile(old(groups)[id], now, alive).1
    {
      cancelled := {};
      var keys := groups.Keys;
      while keys != {}
        invariant keys <= groups.Keys <= old(groups).Keys
        invariant forall id :: id in groups ==> groups[id] == old(groups)[id]
        invariant forall id :: id in old(groups) && id !in keys ==>
                    (id in groups <==> Reconcile(old(groups)[id], now, alive).0)
        invariant forall id :: id in old(groups) && id !in keys ==> Reconcile(old(groups)[id], now, alive).1 <= cancelled
        invariant forall t :: t in cancelled ==>
                    exists id :: id in old(groups) && t in Reconcile(old(groups)[id], now, alive).1
        decreases keys
      {
        var id :| id in keys;
        var r := Reconcile(groups[id], now, alive);
        cancelled := cancelled + r.1;
        if !r.0 {
          groups := groups - {id};
        }
        keys := keys - {id};
      }
    }

    /** `cancel_group`: an unknown id gives false; otherwise both pending legs are cancelled and the group removed. */
    method CancelGroup(id: string, alive: set<int>) returns (ok: bool, cancelled: set<int>)
      modifies this
      ensures ok <==> id in old(groups)
      ensures groups == old(groups) - {id}
      ensures ok ==> cancelled == Legs(old(groups)[id]) * alive
      ensures !ok ==> cancelled == {}
    {
      if id !in groups {
        return false, {};
      }
      cancelled := Legs(groups[id]) * alive;
      groups := groups - {id};
      ok := true;
    }
  }

  // ---------------------------------------------------------------------
  // Reconciling one group
  // ---------------------------------------------------------------------

  function Legs(g: OcoGroup): set<int> {
    {g.buyTicket, g.sellTicket}
  }

  predicate Expired(g: OcoGroup, now: real) {
    g.expiresTs != 0.0 && now >= g.expiresTs
  }

  /**
   * One group of `on_tick`: expired, cancel both legs; one leg gone, cancel
   * the other; both gone, just forget the group; otherwise keep it.
   * Returns whether the group is kept and the legs to cancel.
   */
  function Reconcile(g: OcoGroup, now: real, alive: set<int>): (r: (bool, set<int>))
    ensures r.0 <==> !Expired(g, now) && g.buyTicket in alive && g.sellTicket in alive
    ensures r.0 ==> r.1 == {}
    ensures !r.0 ==> r.1 == Legs(g) * alive
  {
    if Expired(g, now) then (false, Legs(g) * alive)
    else
      var buyAlive := g.buyTicket in alive;
      var sellAlive := g.sellTicket in alive;
      if !buyAlive && sellAlive then (false, {g.sellTicket} * alive)
      else if !sellAlive && buyAlive then (false, {g.buyTicket} * alive)
      else if !buyAlive && !sellAlive then (false, {})
      else (true, {})
  }

  /** One-cancels-other: when a leg has been filled or cancelled, the other leg is cancelled. */
  lemma OneLegGoneCancelsOther(g: OcoGroup, now: real, alive: set<int>)
    requires !Expired(g, now)
    ensures g.buyTicket !in alive && g.sellTicket in alive ==>
              Reconcile(g, now, alive) == (false, {g.sellTicket})
    ensures g.sellTicket !in alive && g.buyTicket in alive ==>
              Reconcile(g, now, alive) == (false, {g.buyTicket})
    ensures g.buyTicket !in alive && g.sellTicket !in alive ==> Reconcile(g, now, alive) == (false, {})
  {
    if g.buyTicket !in alive && g.sellTicket !in alive {
      assert Legs(g) * alive == {};
    } else if g.buyTicket !in alive {
      assert Legs(g) * alive == {g.sellTicket};
    } else if g.sellTicket !in alive {
      assert Legs(g) * alive == {g.buyTicket};
    }
  }

  /** A group that never expires is kept for as long as both legs are pending. */
  lemma NeverExpiringGroupKept(g: OcoGroup, now: real, alive: set<int>)
    requires g.expiresTs == 0.0
    ensures Reconcile(g, now, alive).0 <==> Legs(g) <= alive
  {
  }
}
