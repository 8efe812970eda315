/**
 * Hazardous terrain (hazardousTerrainApi.ts): five mock providers whose results are concatenated.
 * Thin ice is seasonal: it is only active in winter, and with `seasonAdjusted` it is not reported
 * outside winter at all. Random draws and positions, the current instant and month are parameters.
 */
module HazardousTerrain {
  import opened Wrappers
  import opened PoiTypes

  /** A mock terrain hazard: category `warning`, subcategory `terrain`, from an official source. */
  function TerrainPoi(id: string, at: Point, elevation: int, severity: string, active: bool,
                      verified: Instant, isActive: Option<bool>): Poi
  {
    MockPoi(id, "warning", "terrain", at, elevation, "official",
            Properties(Some(SafetyWarning("terrain", severity, active)), Some(verified), isActive))
  }

  /** Every POI of a list is an official terrain warning. */
  predicate TerrainWarnings(r: seq<Poi>)
  {
    forall p :: p in r ==> p.category == "warning" && p.subcategory == "terrain" && p.source == "official"
  }

  /** Every POI of a list carries an active safety warning. */
  predicate AllActive(r: seq<Poi>)
  {
    forall p :: p in r ==> HasActiveWarning(p)
  }

  /** fetchQuicksandAreas: one high-severity area, present only when the draw exceeds 0.9. */
  function FetchQuicksandAreas(tag: string, now: Instant, at: Point, draw: real): (r: seq<Poi>)
    ensures |r| == (if draw > 0.9 then 1 else 0)
    ensures TerrainWarnings(r) && AllActive(r)
  {
    if draw > 0.9 then [TerrainPoi("hazard-quicksand-1-" + tag, at, 80, "high", true, now - 60 * DayMs, None)] else []
  }

  /** fetchSwampAreas: a swamp and a bog together, present only when the draw exceeds 0.7. */
  function FetchSwampAreas(tag: string, now: Instant, at1: Point, at2: Point, draw: real): (r: seq<Poi>)
    ensures |r| == (if draw > 0.7 then 2 else 0)
    ensures TerrainWarnings(r) && AllActive(r)
  {
    if draw > 0.7 then
      [ TerrainPoi("hazard-swamp-1-" + tag, at1, 120, "moderate", true, now - 45 * DayMs, None),
        TerrainPoi("hazard-bog-1-" + tag, at2, 160, "high", true, now - 90 * DayMs, None) ]
    else []
  }

  /** fetchSteepCliffs: one rockfall zone, present only when the draw exceeds 0.6. */
  function FetchSteepCliffs(tag: string, now: Instant, at: Point, draw: real): (r: seq<Poi>)
    ensures |r| == (if draw > 0.6 then 1 else 0)
    ensures TerrainWarnings(r) && AllActive(r)
  {
    if draw > 0.6 then [TerrainPoi("hazard-cliff-1-" + tag, at, 650, "high", true, now - 30 * DayMs, None)] else []
  }

  /** `isWinterSeason`: November to March. */
  predicate IsWinterSeason(month: int)
  {
    month >= 11 || month <= 3
  }

  /**
   * fetchUnstableIceAreas: nothing when season-adjusted outside winter; otherwise one thin-ice area when
   * the draw exceeds 0.7, whose warning and activity flag both say whether it is winter.
   */
  function FetchUnstableIceAreas(tag: string, now: Instant, month: int, seasonAdjusted: bool,
                                 at: Point, draw: real): (r: seq<Poi>)
    ensures seasonAdjusted && !IsWinterSeason(month) ==> r == []
    ensures |r| == (if (!seasonAdjusted || IsWinterSeason(month)) && draw > 0.7 then 1 else 0)
    ensures TerrainWarnings(r)
    ensures forall p :: p in r ==>
      && p.properties.safetyWarning.Some?
      && p.properties.safetyWarning.value.active == IsWinterSeason(month)
      && p.properties.isActive == Some(IsWinterSeason(month))
  {
    var winter := IsWinterSeason(month);
    if seasonAdjusted && !winter then []
    else if draw > 0.7 then [TerrainPoi("hazard-ice-1-" + tag, at, 420, "extreme", winter, now, Some(winter))]
    else []
  }

  /** fetchGeothermalAreas: one hot-spring field, present only when the draw exceeds 0.95. */
  function FetchGeothermalAreas(tag: string, now: Instant, at: Point, draw: real): (r: seq<Poi>)
    ensures |r| == (if draw > 0.95 then 1 else 0)
    ensures TerrainWarnings(r) && AllActive(r)
  {
    if draw > 0.95 then [TerrainPoi("hazard-geothermal-1-" + tag, at, 320, "high", true, now - 60 * DayMs, None)] else []
  }

  /** fetchHazardousTerrain: the five results in provider order; a failure of any provider yields []. */
  function FetchHazardousTerrain(quicksand: Outcome<seq<Poi>>, swamp: Outcome<seq<Poi>>, cliffs: Outcome<seq<Poi>>,
                                 ice: Outcome<seq<Poi>>, geothermal: Outcome<seq<Poi>>): (r: seq<Poi>)
    ensures quicksand.Threw? || swamp.Threw? || cliffs.Threw? || ice.Threw? || geothermal.Threw? ==> r == []
    ensures quicksand.Done? && swamp.Done? && cliffs.Done? && ice.Done? && geothermal.Done? ==>
      r == quicksand.value + swamp.value + cliffs.value + ice.value + geothermal.value
  {
    match (quicksand, swamp, cliffs, ice, geothermal)
    case (Done(q), Done(s), Done(c), Done(i), Done(g)) => q + s + c + i + g
    case _ => []
  }

  /**
   * With the mock providers the call returns at most six official terrain warnings; the only inactive
   * one can be thin ice outside winter, and with `seasonAdjusted` every returned hazard is active.
   */
  lemma MockHazards(tag: string, now: Instant, month: int, seasonAdjusted: bool,
                    at: seq<Point>, draw: seq<real>)
    requires |at| == 6 && |draw| == 5
    ensures var q := FetchQuicksandAreas(tag, now, at[0], draw[0]);
      var s := FetchSwampAreas(tag, now, at[1], at[2], draw[1]);
      var c := FetchSteepCliffs(tag, now, at[3], draw[2]);
      var i := FetchUnstableIceAreas(tag, now, month, seasonAdjusted, at[4], draw[3]);
      var g := FetchGeothermalAreas(tag, now, at[5], draw[4]);
      var r := FetchHazardousTerrain(Done(q), Done(s), Done(c), Done(i), Done(g));
      && |r| <= 6
      && TerrainWarnings(r)
      && (forall p :: p in r && !HasActiveWarning(p) ==> p in i && !IsWinterSeason(month))
      && (seasonAdjusted ==> AllActive(r))
  {
    var q := FetchQuicksandAreas(tag, now, at[0], draw[0]);
    var s := FetchSwampAreas(tag, now, at[1], at[2], draw[1]);
    var c := FetchSteepCliffs(tag, now, at[3], draw[2]);
    var i := FetchUnstableIceAreas(tag, now, month, seasonAdjusted, at[4], draw[3]);
    var g := FetchGeothermalAreas(tag, now, at[5], draw[4]);
    var r := q + s + c + i + g;
    assert FetchHazardousTerrain(Done(q), Done(s), Done(c), Done(i), Done(g)) == r;
    forall p | p in r ensures p in q || p in s || p in c || p in i || p in g {
    }
    forall p | p in i && !HasActiveWarning(p) ensures !IsWinterSeason(month) {
    }
  }
}
