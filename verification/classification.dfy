/** Display classification of a site's seismic category and cooling-water score. */
module Classification {
  import opened Lookup
  import opened Registry

  /** The class the seismic switch falls back to for an unrecognised category. */
  const FallbackColor: string := "text-muted-foreground"

  /** The category as it is spelled in the catalog's string union. */
  function SeismicName(s: Seismic): string {
    match s
    case Low => "Low"
    case Moderate => "Moderate"
    case ModerateHigh => "Moderate-High"
    case High => "High"
  }

  /** Reads a category name back; nothing for any other text. */
  function ParseSeismic(text: string): (r: Option<Seismic>)
    ensures r.Some? ==> SeismicName(r.value) == text
    ensures r.None? ==> forall s: Seismic :: SeismicName(s) != text
  {
    if text == "Low" then Some(Low)
    else if text == "Moderate" then Some(Seismic.Moderate)
    else if text == "Moderate-High" then Some(ModerateHigh)
    else if text == "High" then Some(High)
    else None
  }

  /** Every category name reads back as the same category. */
  lemma ParseSeismicName(s: Seismic)
    ensures ParseSeismic(SeismicName(s)) == Some(s)
  {
  }

  /** The colour switch on the category text, including its `default` branch. */
  function SeismicColorOfText(text: string): (color: string)
    ensures color == FallbackColor <==> ParseSeismic(text).None?
  {
    if text == "Low" then "text-success"
    else if text == "Moderate" then "text-warning"
    else if text == "Moderate-High" then "text-energy-amber"
    else if text == "High" then "text-destructive"
    else FallbackColor
  }

  /** The colour of a well-formed category: the switch never reaches its fallback. */
  function SeismicColor(s: Seismic): (color: string)
    ensures color != FallbackColor
  {
    ParseSeismicName(s);
    SeismicColorOfText(SeismicName(s))
  }

  /** Distinct categories get distinct colours. */
  lemma SeismicColorInjective(a: Seismic, b: Seismic)
    ensures SeismicColor(a) == SeismicColor(b) <==> a == b
  {
  }

  /** Water-availability bands, worst first. */
  datatype WaterBand = Limited | Moderate | Good | Excellent {

    function Rank(): nat {
      match this
      case Limited => 0
      case Moderate => 1
      case Good => 2
      case Excellent => 3
    }

    /** The band's lower threshold is met by score `w`; bands are closed below. */
    predicate ReachedBy(w: int) {
      match this
      case Excellent => w >= 9
      case Good => w >= 7
      case Moderate => w >= 5
      case Limited => true
    }

    function Label(): string {
      match this
      case Excellent => "Excellent"
      case Good => "Good"
      case Moderate => "Moderate"
      case Limited => "Limited"
    }

    function Color(): string {
      match this
      case Excellent => "text-success"
      case Good => "text-primary"
      case Moderate => "text-warning"
      case Limited => "text-destructive"
    }
  }

  /** The best band whose threshold the score meets, tested from the top down. */
  function WaterBandOf(w: int): (b: WaterBand)
    ensures b.ReachedBy(w)
    ensures forall c: WaterBand :: c.Rank() > b.Rank() ==> !c.ReachedBy(w)
  {
    if w >= 9 then Excellent
    else if w >= 7 then Good
    else if w >= 5 then WaterBand.Moderate
    else Limited
  }

  /** The `{ label, color }` pair shown for a water score (`label` is a reserved word here). */
  datatype WaterLevel = WaterLevel(text: string, color: string)

  /** Label and colour of a water score. */
  function GetWaterLevel(w: int): (r: WaterLevel)
    ensures r.text == "Excellent" <==> w >= 9
    ensures r.text == "Good" <==> 7 <= w < 9
    ensures r.text == "Moderate" <==> 5 <= w < 7
    ensures r.text == "Limited" <==> w < 5
    ensures r.color == WaterBandOf(w).Color()
  {
    var b := WaterBandOf(w);
    WaterLevel(b.Label(), b.Color())
  }

  /** A better score never lands in a worse band. */
  lemma WaterBandMonotone(w1: int, w2: int)
    requires w1 <= w2
    ensures WaterBandOf(w1).Rank() <= WaterBandOf(w2).Rank()
  {
    var b1 := WaterBandOf(w1);
    assert b1.ReachedBy(w2) by {
      match b1
      case Excellent =>
      case Good =>
      case Moderate =>
      case Limited =>
    }
  }

  /** The bands the catalog's four sites fall into. */
  lemma CatalogWaterLevels()
    ensures GetWaterLevel(CandidateSites[0].water).text == "Excellent"
    ensures GetWaterLevel(CandidateSites[1].water).text == "Good"
    ensures GetWaterLevel(CandidateSites[2].water).text == "Limited"
    ensures GetWaterLevel(CandidateSites[3].water).text == "Good"
  {
  }
}
