// The risk manager: a daily risk counter and the lot size that risks a
// given share of the balance over the stop-loss distance, clamped to the
// symbol's volume limits.

module Risk {
  import opened Base

  /** The symbol's volume limits, as `symbol_info` reports them. */
  datatype VolumeLimits = VolumeLimits(volumeMin: real, volumeMax: real)

  /** `balance * (risk_percent / 100)`. */
  function RiskAmount(balance: real, riskPercent: real): real {
    balance * (riskPercent / 100.0)
  }

  /**
   * `calculate_lot_size`: the risk amount over `sl_pips * lot_value`
   * (0 when that distance is 0), clamped as `max(min(lot, volume_max),
   * volume_min)`; 0 when the symbol has no info. `lotValue` is what the
   * broker reports as the value of one pip per lot.
   */
  function LotSize(balance: real, slPips: real, lotValue: real, riskPercent: real, info: Option<VolumeLimits>): (lot: real)
    ensures info.None? ==> lot == 0.0
    ensures info.Some? ==> lot >= info.value.volumeMin
    ensures info.Some? && info.value.volumeMin <= info.value.volumeMax ==> lot <= info.value.volumeMax
    ensures info.Some? && slPips * lotValue == 0.0 ==> lot == Clamp(0.0, info.value)
    ensures info.Some? && slPips * lotValue != 0.0 ==>
              lot == Clamp(RiskAmount(balance, riskPercent) / (slPips * lotValue), info.value)
  {
    var slDistance := slPips * lotValue;
    var raw := if slDistance != 0.0 then RiskAmount(balance, riskPercent) / slDistance else 0.0;
    match info
    case None => 0.0
    case Some(limits) => Clamp(raw, limits)
  }

  /** `max(min(x, volume_max), volume_min)`. */
  function Clamp(x: real, limits: VolumeLimits): (r: real)
    ensures r >= limits.volumeMin
    ensures limits.volumeMin <= limits.volumeMax ==> r <= limits.volumeMax
    ensures limits.volumeMin <= x <= limits.volumeMax ==> r == x
  {
    var capped := if x < limits.volumeMax then x else limits.volumeMax;
    if capped > limits.volumeMin then capped else limits.volumeMin
  }

  /** The clamp never reverses an order. */
  lemma ClampMonotone(x: real, y: real, limits: VolumeLimits)
    requires x <= y
    ensures Clamp(x, limits) <= Clamp(y, limits)
  {
  }

  /**
   * Risking more of a larger balance over the same positive stop distance
   * never gives a smaller lot.
   */
  lemma LotSizeMonotoneInBalance(b1: real, b2: real, slPips: real, lotValue: real, riskPercent: real, limits: VolumeLimits)
    requires b1 <= b2 && riskPercent >= 0.0 && slPips * lotValue > 0.0
    ensures LotSize(b1, slPips, lotValue, riskPercent, Some(limits)) <= LotSize(b2, slPips, lotValue, riskPercent, Some(limits))
  {
    var d := slPips * lotValue;
    var f := riskPercent / 100.0;
    assert RiskAmount(b1, riskPercent) <= RiskAmount(b2, riskPercent) by {
      MultiplyMonotone(b1, b2, f);
    }
    DivideMonotone(RiskAmount(b1, riskPercent), RiskAmount(b2, riskPercent), d);
    ClampMonotone(RiskAmount(b1, riskPercent) / d, RiskAmount(b2, riskPercent) / d, limits);
  }

  lemma MultiplyMonotone(x: real, y: real, f: real)
    requires x <= y && f >= 0.0
    ensures x * f <= y * f
  {
  }

  lemma DivideMonotone(x: real, y: real, d: real)
    requires x <= y && d > 0.0
    ensures x / d <= y / d
  {
  }

  /** `RiskManager`: the risk used today. */
  class RiskManager {
    var dailyRiskUsed: real

    constructor()
      ensures dailyRiskUsed == 0.0
    {
      dailyRiskUsed := 0.0;
    }

    /** `reset_daily_risk`. */
    method ResetDailyRisk()
      modifies this
      ensures dailyRiskUsed == 0.0
    {
      dailyRiskUsed := 0.0;
    }
  }
}
