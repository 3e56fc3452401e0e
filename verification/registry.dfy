/** The fixed catalog of candidate reactor sites and grid load centres, and the
    Yangon hub every evaluation delivers to. */
module Registry {
  import opened Lookup

  /** Nameplate capacity of one small modular reactor, in MW. */
  const SmrCapacityMw: int := 300

  /** Energy generated per day at full capacity, in MWh. */
  const DailyGenerationTarget: int := 7200

  /** Seismic risk category of a site. */
  datatype Seismic = Low | Moderate | ModerateHigh | High

  /** A candidate site on the supply side. `water` is a 1–10 cooling-water score;
      an absent `isPreferred` flag reads as `false`. */
  datatype CandidateSite = CandidateSite(
    id: string,
    name: string,
    lat: real,
    lng: real,
    water: int,
    seismic: Seismic,
    partnership: Option<string>,
    description: string,
    isPreferred: bool)

  /** A load centre on the demand side; priority 1 is served first. */
  datatype LoadCenter = LoadCenter(
    id: string,
    name: string,
    lat: real,
    lng: real,
    demandMWh: int,
    priority: int)

  const CandidateSites: seq<CandidateSite> := [
    CandidateSite("dawei", "Dawei", 14.08, 98.20, 10, Low, Some("Russia-Myanmar G2G"),
      "Strategic SEZ & Deep Sea Port. High cooling capacity. Ideal for industrial baseload.", true),
    CandidateSite("ye", "Ye", 15.25, 97.85, 8, Moderate, None,
      "Good coastal access but lacks Dawei's SEZ infrastructure.", false),
    CandidateSite("naypyidaw-site", "Naypyidaw", 19.76, 96.07, 4, ModerateHigh, None,
      "Central location but limited cooling water and higher seismic risk.", false),
    CandidateSite("mawlamyine-site", "Mawlamyine", 16.49, 97.63, 7, Moderate, None,
      "Existing grid node, but higher population density limits expansion.", false)
  ]

  const LoadCenters: seq<LoadCenter> := [
    LoadCenter("yangon", "Yangon (Thilawa)", 16.63, 96.27, 49511, 1),
    LoadCenter("mandalay", "Mandalay", 21.98, 96.08, 48851, 2),
    LoadCenter("naypyidaw", "Naypyidaw", 19.76, 96.07, 2902, 3),
    LoadCenter("mawlamyine", "Mawlamyine", 16.49, 97.63, 1860, 4),
    LoadCenter("bago", "Bago", 17.32, 96.47, 1500, 5),
    LoadCenter("pathein", "Pathein", 16.78, 94.74, 1322, 6),
    LoadCenter("taunggyi", "Taunggyi", 20.78, 97.03, 580, 7)
  ]

  predicate IsYangon(lc: LoadCenter) {
    lc.id == "yangon"
  }

  /** The hub, looked up by a first-match search for the id "yangon". */
  function YangonHub(): (hub: LoadCenter)
    ensures hub == LoadCenters[0]
    ensures hub.id == "yangon" && hub.demandMWh == 49511 && hub.priority == 1
  {
    assert IsYangon(LoadCenters[0]);
    Find(LoadCenters, IsYangon).value
  }

  predicate SiteIdsDistinct(sites: seq<CandidateSite>) {
    forall i, j | 0 <= i < j < |sites| :: sites[i].id != sites[j].id
  }

  predicate CenterIdsDistinct(centers: seq<LoadCenter>) {
    forall i, j | 0 <= i < j < |centers| :: centers[i].id != centers[j].id
  }

  /** Priorities are 1, 2, 3, … in list order: a strict ranking with no ties. */
  predicate RankedByPriority(centers: seq<LoadCenter>) {
    forall i | 0 <= i < |centers| :: centers[i].priority == i + 1
  }

  predicate WaterScoresInRange(sites: seq<CandidateSite>) {
    forall i | 0 <= i < |sites| :: 1 <= sites[i].water <= 10
  }

  predicate DemandsNonNegative(centers: seq<LoadCenter>) {
    forall i | 0 <= i < |centers| :: centers[i].demandMWh >= 0
  }

  /** The data invariants the catalog is written to respect. */
  lemma CatalogConsistent()
    ensures DailyGenerationTarget == SmrCapacityMw * 24
    ensures |CandidateSites| == 4 && |LoadCenters| == 7
    ensures SiteIdsDistinct(CandidateSites)
    ensures CenterIdsDistinct(LoadCenters)
    ensures RankedByPriority(LoadCenters)
    ensures WaterScoresInRange(CandidateSites)
    ensures DemandsNonNegative(LoadCenters)
  {
  }

  /** The hub is the load centre with the largest demand, and that demand exceeds a
      full day of generation. */
  lemma HubDominatesDemand()
    ensures forall i | 0 <= i < |LoadCenters| :: LoadCenters[i].demandMWh <= YangonHub().demandMWh
    ensures YangonHub().demandMWh > DailyGenerationTarget
  {
  }

  /** Without its first entry the catalog has no "yangon" centre, so the lookup finds nothing. */
  lemma HubLookupFailsWithoutYangon()
    ensures Find(LoadCenters[1..], IsYangon).None?
  {
  }
}
