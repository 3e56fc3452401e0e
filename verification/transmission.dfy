/** Linear transmission-loss model: 3 percentage points lost per 100 km of line. */
module Transmission {
  import JsMath

  /** Beyond this distance the linear loss reaches 100% and delivery stops. */
  const CutoffKm: real := 10000.0 / 3.0

  /** Delivery efficiency in percent after `distanceKm` of line, clamped at 0. */
  function Efficiency(distanceKm: real): (eff: real)
    ensures eff >= 0.0
    ensures distanceKm >= 0.0 ==> eff <= 100.0
    ensures eff == 0.0 <==> distanceKm >= CutoffKm
    ensures distanceKm <= CutoffKm ==> eff + 3.0 * distanceKm / 100.0 == 100.0
  {
    var lossPercentage := (distanceKm / 100.0) * 3.0;
    JsMath.Max(0.0, 100.0 - lossPercentage)
  }

  /** No loss over zero distance. */
  lemma FullEfficiencyAtSource()
    ensures Efficiency(0.0) == 100.0
  {
  }

  /** A longer line never delivers a larger share. */
  lemma EfficiencyNonIncreasing(d1: real, d2: real)
    requires d1 <= d2
    ensures Efficiency(d1) >= Efficiency(d2)
  {
  }

  /** Until the cut-off, every extra kilometre costs efficiency. */
  lemma EfficiencyStrictlyDecreasing(d1: real, d2: real)
    requires d1 < d2
    requires Efficiency(d1) > 0.0
    ensures Efficiency(d1) > Efficiency(d2)
  {
  }
}
