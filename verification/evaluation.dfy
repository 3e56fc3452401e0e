/** Energy a candidate site delivers to a hub: distance, line efficiency, delivered
    energy, and its split between what the hub absorbs and the surplus. */
module Evaluation {
  import opened JsMath
  import opened Registry
  import opened Transmission

  /** A great-circle distance in km between (lat1, lng1) and (lat2, lng2). The haversine
      computation itself is supplied by the caller. */
  type Geodesy = (real, real, real, real) -> real

  /** The unrounded quantities of one evaluation. */
  datatype PowerSplit = PowerSplit(efficiency: real, deliveredMWh: real, absorbed: real, surplus: real)

  /** The evaluation as reported: whole km and MWh, efficiency to one decimal. */
  datatype EffectivePower = EffectivePower(
    distanceKm: int,
    efficiency: real,
    deliveredMWh: int,
    absorbedByYangon: int,
    surplus: int)

  /** Delivered energy after line loss, split between the hub's demand and the rest. */
  function SplitPower(distanceKm: real, hubDemandMWh: real): (s: PowerSplit)
    ensures s.efficiency == Efficiency(distanceKm)
    ensures s.deliveredMWh * 100.0 == DailyGenerationTarget as real * s.efficiency
    ensures 0.0 <= s.deliveredMWh
    ensures distanceKm >= 0.0 ==> s.deliveredMWh <= DailyGenerationTarget as real
    ensures s.absorbed <= s.deliveredMWh && s.absorbed <= hubDemandMWh
    ensures s.absorbed == s.deliveredMWh || s.absorbed == hubDemandMWh
    ensures s.surplus >= 0.0
    ensures s.absorbed + s.surplus == s.deliveredMWh
    ensures s.deliveredMWh <= hubDemandMWh ==> s.absorbed == s.deliveredMWh && s.surplus == 0.0
  {
    var efficiency := Efficiency(distanceKm);
    var deliveredMWh := DailyGenerationTarget as real * (efficiency / 100.0);
    var absorbed := Min(deliveredMWh, hubDemandMWh);
    var surplus := Max(0.0, deliveredMWh - hubDemandMWh);
    PowerSplit(efficiency, deliveredMWh, absorbed, surplus)
  }

  /** `x` has at most one decimal place. */
  predicate IsTenths(x: real) {
    (x * 10.0).Floor as real == x * 10.0
  }

  /** The result boundary: each energy figure and the distance to the nearest whole
      number, the efficiency to the nearest tenth. */
  function RoundPower(distanceKm: real, s: PowerSplit): (p: EffectivePower)
    ensures -0.5 < p.distanceKm as real - distanceKm <= 0.5
    ensures -0.05 < p.efficiency - s.efficiency <= 0.05
    ensures IsTenths(p.efficiency)
    ensures -0.5 < p.deliveredMWh as real - s.deliveredMWh <= 0.5
    ensures -0.5 < p.absorbedByYangon as real - s.absorbed <= 0.5
    ensures -0.5 < p.surplus as real - s.surplus <= 0.5
  {
    EffectivePower(
      Round(distanceKm),
      Round(s.efficiency * 10.0) as real / 10.0,
      Round(s.deliveredMWh),
      Round(s.absorbed),
      Round(s.surplus))
  }

  /** Rounding keeps the bounds and the order of the split's quantities. */
  lemma RoundingKeepsInvariants(distanceKm: real, hubDemandMWh: real)
    requires distanceKm >= 0.0
    ensures var p := RoundPower(distanceKm, SplitPower(distanceKm, hubDemandMWh));
      && p.distanceKm >= 0
      && 0.0 <= p.efficiency <= 100.0
      && 0 <= p.deliveredMWh <= DailyGenerationTarget
      && p.absorbedByYangon <= p.deliveredMWh
      && (hubDemandMWh >= 0.0 ==> p.absorbedByYangon >= 0)
      && p.surplus >= 0
  {
    var s := SplitPower(distanceKm, hubDemandMWh);
    RoundMonotone(0.0, distanceKm);
    RoundMonotone(0.0, s.efficiency * 10.0);
    RoundMonotone(s.efficiency * 10.0, 1000.0);
    RoundOfWhole(0);
    RoundOfWhole(1000);
    RoundMonotone(0.0, s.deliveredMWh);
    RoundMonotone(s.deliveredMWh, DailyGenerationTarget as real);
    RoundOfWhole(DailyGenerationTarget);
    if hubDemandMWh >= 0.0 {
      RoundMonotone(0.0, s.absorbed);
    }
    RoundMonotone(s.absorbed, s.deliveredMWh);
    RoundMonotone(0.0, s.surplus);
  }

  /** `p` reports, for a line of `distanceKm` to a hub demanding `hubDemandMWh`: the distance
      to the nearest km, the efficiency to the nearest tenth of a point, and the energy
      delivered, absorbed by the hub and left over each to the nearest MWh. */
  predicate ReportsEvaluation(p: EffectivePower, distanceKm: real, hubDemandMWh: real) {
    var delivered := DailyGenerationTarget as real * Efficiency(distanceKm) / 100.0;
    && -0.5 < p.distanceKm as real - distanceKm <= 0.5
    && IsTenths(p.efficiency)
    && -0.05 < p.efficiency - Efficiency(distanceKm) <= 0.05
    && -0.5 < p.deliveredMWh as real - delivered <= 0.5
    && -0.5 < p.absorbedByYangon as real - Min(delivered, hubDemandMWh) <= 0.5
    && -0.5 < p.surplus as real - Max(0.0, delivered - hubDemandMWh) <= 0.5
  }

  /** Evaluates a site against a hub. Every field is in range; a hub whose demand
      covers a full day of generation absorbs all of it and leaves no surplus. */
  function EvaluateSite(site: CandidateSite, hub: LoadCenter, distance: Geodesy): (p: EffectivePower)
    requires distance(site.lat, site.lng, hub.lat, hub.lng) >= 0.0
    ensures ReportsEvaluation(p, distance(site.lat, site.lng, hub.lat, hub.lng), hub.demandMWh as real)
    ensures p.distanceKm >= 0
    ensures 0.0 <= p.efficiency <= 100.0
    ensures 0 <= p.deliveredMWh <= DailyGenerationTarget
    ensures p.absorbedByYangon <= p.deliveredMWh
    ensures hub.demandMWh >= 0 ==> p.absorbedByYangon >= 0
    ensures p.surplus >= 0
    ensures hub.demandMWh >= DailyGenerationTarget ==> p.surplus == 0 && p.absorbedByYangon == p.deliveredMWh
  {
    var distanceKm := distance(site.lat, site.lng, hub.lat, hub.lng);
    var s := SplitPower(distanceKm, hub.demandMWh as real);
    RoundingKeepsInvariants(distanceKm, hub.demandMWh as real);
    RoundOfWhole(0);
    RoundPower(distanceKm, s)
  }

  /** `calculateEffectivePower`: evaluation against the Yangon hub. Its demand exceeds
      a day's generation, so everything delivered is absorbed. */
  function CalculateEffectivePower(site: CandidateSite, distance: Geodesy): (p: EffectivePower)
    requires distance(site.lat, site.lng, YangonHub().lat, YangonHub().lng) >= 0.0
    ensures ReportsEvaluation(p, distance(site.lat, site.lng, YangonHub().lat, YangonHub().lng), 49511.0)
    ensures p.distanceKm >= 0
    ensures 0.0 <= p.efficiency <= 100.0
    ensures 0 <= p.deliveredMWh <= DailyGenerationTarget
    ensures p.absorbedByYangon == p.deliveredMWh
    ensures p.surplus == 0
  {
    EvaluateSite(site, YangonHub(), distance)
  }

  /** Every catalog site, at any distance the geodesy reports, leaves no surplus at Yangon. */
  lemma CatalogSitesLeaveNoSurplus(distance: Geodesy)
    requires forall i | 0 <= i < |CandidateSites| ::
      distance(CandidateSites[i].lat, CandidateSites[i].lng, YangonHub().lat, YangonHub().lng) >= 0.0
    ensures forall i | 0 <= i < |CandidateSites| ::
      CalculateEffectivePower(CandidateSites[i], distance).surplus == 0
  {
  }

  /** Dawei lies about 351 km from the hub; any distance in that window yields the
      reported figures. */
  lemma DaweiScenario(distance: Geodesy)
    requires var hub := YangonHub();
      351.0 <= distance(14.08, 98.20, hub.lat, hub.lng) <= 351.05
    ensures CalculateEffectivePower(CandidateSites[0], distance) == EffectivePower(351, 89.5, 6442, 6442, 0)
  {
  }
}
