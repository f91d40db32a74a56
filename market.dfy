// What the exit engines observe of the trading terminal at one instant, and
// the pip-to-price conversion both exit engines share.

module Market {
  import opened Base
  import opened Broker

  /**
   * A snapshot of the terminal: the pip size the broker object reports for a
   * symbol (absent when it offers none), the terminal's symbol descriptions
   * and latest ticks, and the floating profit it reports per ticket.
   */
  datatype World = World(
    brokerPip: map<string, real>,
    infos: map<string, SymbolInfo>,
    ticks: map<string, Record>,
    profitByTicket: map<Value, real>)

  /**
   * `_pips_to_price`: the broker's pip size when it reports a non-zero one,
   * else the pip derived from the terminal's symbol description, else 0.0001.
   */
  function PipsToPrice(w: World, symbol: string, pips: real): real {
    if symbol != "" && symbol in w.brokerPip && w.brokerPip[symbol] != 0.0 then w.brokerPip[symbol] * pips
    else if symbol != "" && symbol in w.infos then PipSize(Some(w.infos[symbol]), symbol) * pips
    else 0.0001 * pips
  }

  /**
   * The conversion is proportional: `pips` pips are `pips` times one pip,
   * and zero pips are no distance at all.
   */
  lemma PipsToPriceIsLinear(w: World, symbol: string, pips: real)
    ensures PipsToPrice(w, symbol, pips) == PipsToPrice(w, symbol, 1.0) * pips
    ensures PipsToPrice(w, symbol, 0.0) == 0.0
  {
  }

  /**
   * When the broker is the execution broker, whose pip size comes from the
   * same symbol description, the conversion uses that broker's pip; without
   * any source it is 0.0001 per pip.
   */
  lemma PipsToPriceFallbacks(w: World, symbol: string, pips: real)
    ensures symbol != "" && symbol !in w.brokerPip && symbol in w.infos ==>
              PipsToPrice(w, symbol, pips) == PipSize(Some(w.infos[symbol]), symbol) * pips
    ensures symbol != "" && symbol in w.brokerPip && symbol in w.infos &&
            w.brokerPip[symbol] == PipSize(Some(w.infos[symbol]), symbol) ==>
              PipsToPrice(w, symbol, pips) == PipSize(Some(w.infos[symbol]), symbol) * pips
    ensures symbol == "" ==> PipsToPrice(w, symbol, pips) == 0.0001 * pips
  {
  }
}
