/**
 * Wildlife warnings (wildlifeWarningsApi.ts): a community report, an optional official report and the
 * month-driven seasonal warnings, concatenated and optionally narrowed to the active ones.
 * The random positions and the random gate are parameters; the current month is a parameter.
 */
module WildlifeWarnings {
  import opened Wrappers
  import opened Seqs
  import opened PoiTypes

  /** A mock wildlife warning: category `warning`, subcategory `wildlife`. */
  function WildlifePoi(id: string, at: Point, elevation: int, source: string, severity: string, verified: Instant): Poi
  {
    MockPoi(id, "warning", "wildlife", at, elevation, source,
            Properties(Some(ActiveWarning("wildlife", severity)), Some(verified), None))
  }

  /** fetchCommunityWildlifeReports: always one active report of a boar family at a random point. */
  function FetchCommunityWildlifeReports(tag: string, now: Instant, at: Point): (r: seq<Poi>)
    ensures |r| == 1 && r[0].source == "community" && r[0].category == "warning"
    ensures HasActiveWarning(r[0]) && r[0].properties.safetyWarning.value.severity == "moderate"
  {
    [WildlifePoi("wildlife-community-1-" + tag, at, 320, "community", "moderate", now)]
  }

  /** fetchOfficialWildlifeReports: one active wolf-territory report, present only when the draw exceeds 0.7. */
  function FetchOfficialWildlifeReports(tag: string, now: Instant, at: Point, draw: real): (r: seq<Poi>)
    ensures |r| == (if draw > 0.7 then 1 else 0)
    ensures forall p :: p in r ==> p.source == "official" && HasActiveWarning(p)
    ensures forall p :: p in r ==> p.properties.lastVerified == Some(now - 7 * DayMs)
  {
    if draw > 0.7 then [WildlifePoi("wildlife-official-1-" + tag, at, 520, "official", "moderate", now - 7 * DayMs)]
    else []
  }

  /** The three seasonal warnings, in the order the source checks them. */
  datatype Species = Boar | Ticks | Deer

  /** The months in which each seasonal warning is raised: boar November to January, ticks May to September, deer September and October. */
  predicate InSeason(s: Species, month: int)
  {
    match s
    case Boar => month >= 11 || month <= 1
    case Ticks => month >= 5 && month <= 9
    case Deer => month >= 9 && month <= 10
  }

  /** The species warned about in a month, boar before ticks before deer. */
  function SeasonalSpecies(month: int): (r: seq<Species>)
    ensures Boar in r <==> month >= 11 || month <= 1
    ensures Ticks in r <==> 5 <= month <= 9
    ensures Deer in r <==> 9 <= month <= 10
    ensures NoDuplicates(r)
    ensures month == 9 ==> r == [Ticks, Deer]
    ensures 2 <= month <= 4 ==> r == []
  {
    var all := [Boar, Ticks, Deer];
    var r := Filter(all, (s: Species) => InSeason(s, month));
    FilterMembership(all, (s: Species) => InSeason(s, month), Boar);
    FilterMembership(all, (s: Species) => InSeason(s, month), Ticks);
    FilterMembership(all, (s: Species) => InSeason(s, month), Deer);
    r
  }

  /** The record pushed for a species; the tick and deer warnings are offset from the random point. */
  function SeasonalWarning(s: Species, tag: string, now: Instant, at: Point): (p: Poi)
    ensures p.source == "seasonal" && HasActiveWarning(p) && p.properties.lastVerified == Some(now)
  {
    match s
    case Boar => WildlifePoi("wildlife-seasonal-boar-" + tag, at, 380, "seasonal", "high", now)
    case Ticks => WildlifePoi("wildlife-seasonal-ticks-" + tag, Point(at.lat + 0.02, at.lon - 0.01), 280, "seasonal", "moderate", now)
    case Deer => WildlifePoi("wildlife-seasonal-deer-" + tag, Point(at.lat - 0.01, at.lon + 0.02), 600, "seasonal", "low", now)
  }

  /** The warnings for a list of species, one per species in the same order. */
  function SeasonalWarnings(sp: seq<Species>, tag: string, now: Instant, at: Point): (r: seq<Poi>)
    ensures |r| == |sp|
    ensures forall i :: 0 <= i < |sp| ==> r[i] == SeasonalWarning(sp[i], tag, now, at)
  {
    if sp == [] then [] else SeasonalWarnings(sp[..|sp| - 1], tag, now, at) + [SeasonalWarning(sp[|sp| - 1], tag, now, at)]
  }

  /** getSeasonalWildlifeWarnings: pushes one warning per in-season species. */
  method GetSeasonalWildlifeWarnings(month: int, tag: string, now: Instant, at: Point) returns (warnings: seq<Poi>)
    ensures warnings == SeasonalWarnings(SeasonalSpecies(month), tag, now, at)
  {
    warnings := [];
    ghost var pushed: seq<Species> := [];
    if month >= 11 || month <= 1 {
      warnings := warnings + [SeasonalWarning(Boar, tag, now, at)];
      pushed := pushed + [Boar];
    }
    assert warnings == SeasonalWarnings(pushed, tag, now, at);
    if month >= 5 && month <= 9 {
      warnings := warnings + [SeasonalWarning(Ticks, tag, now, at)];
      pushed := pushed + [Ticks];
    }
    assert warnings == SeasonalWarnings(pushed, tag, now, at);
    if month >= 9 && month <= 10 {
      warnings := warnings + [SeasonalWarning(Deer, tag, now, at)];
      pushed := pushed + [Deer];
    }
    assert pushed == SeasonalSpecies(month);
  }

  /**
   * fetchWildlifeWarnings: community ++ official ++ seasonal, narrowed to the warnings with an active
   * safety warning when `activeOnly` is set; a failure of any source yields [].
   */
  function FetchWildlifeWarnings(community: Outcome<seq<Poi>>, official: Outcome<seq<Poi>>,
                                 seasonal: Outcome<seq<Poi>>, activeOnly: bool): (r: seq<Poi>)
    ensures community.Threw? || official.Threw? || seasonal.Threw? ==> r == []
    ensures community.Done? && official.Done? && seasonal.Done? && !activeOnly ==>
      r == community.value + official.value + seasonal.value
    ensures community.Done? && official.Done? && seasonal.Done? && activeOnly ==>
      forall p :: p in r <==> p in community.value + official.value + seasonal.value && HasActiveWarning(p)
    ensures community.Done? && official.Done? && seasonal.Done? && activeOnly ==>
      var all := community.value + official.value + seasonal.value;
      Subsequence(r, all) && forall p :: multiset(r)[p] == if HasActiveWarning(p) then multiset(all)[p] else 0
    ensures activeOnly ==> forall i :: 0 <= i < |r| ==> HasActiveWarning(r[i])
  {
    if community.Threw? || official.Threw? || seasonal.Threw? then []
    else
      var all := community.value + official.value + seasonal.value;
      if activeOnly then
        var kept := Filter(all, HasActiveWarning);
        assert forall p :: p in kept <==> p in all && HasActiveWarning(p) by {
          forall p ensures p in kept <==> p in all && HasActiveWarning(p) {
            FilterMembership(all, HasActiveWarning, p);
          }
        }
        forall p ensures multiset(kept)[p] == if HasActiveWarning(p) then multiset(all)[p] else 0 {
          FilterCount(all, HasActiveWarning, p);
        }
        FilterSubsequence(all, HasActiveWarning);
        kept
      else all
  }

  /** Every mock warning is active, so with the mock sources `activeOnly` does not change the result. */
  lemma MockWarningsAllActive(tag: string, now: Instant, month: int, draw: real, at1: Point, at2: Point, at3: Point)
    ensures
      var c := Done(FetchCommunityWildlifeReports(tag, now, at1));
      var o := Done(FetchOfficialWildlifeReports(tag, now, at2, draw));
      var s := Done(SeasonalWarnings(SeasonalSpecies(month), tag, now, at3));
      FetchWildlifeWarnings(c, o, s, true) == FetchWildlifeWarnings(c, o, s, false)
  {
    var c := FetchCommunityWildlifeReports(tag, now, at1);
    var o := FetchOfficialWildlifeReports(tag, now, at2, draw);
    var s := SeasonalWarnings(SeasonalSpecies(month), tag, now, at3);
    assert forall p :: p in c ==> HasActiveWarning(p) by {
      assert c == [c[0]];
    }
    SeasonalAllActive(SeasonalSpecies(month), tag, now, at3);
    ActiveOnlyKeepsAll(c, o, s);
  }

  /** Every seasonal warning is active. */
  lemma SeasonalAllActive(sp: seq<Species>, tag: string, now: Instant, at: Point)
    ensures forall p :: p in SeasonalWarnings(sp, tag, now, at) ==> HasActiveWarning(p)
  {
    var s := SeasonalWarnings(sp, tag, now, at);
    forall p | p in s ensures HasActiveWarning(p) {
      var i :| 0 <= i < |s| && s[i] == p;
      assert p == SeasonalWarning(sp[i], tag, now, at);
    }
  }

  /** When every source only reports active warnings, `activeOnly` keeps the whole result. */
  lemma ActiveOnlyKeepsAll(c: seq<Poi>, o: seq<Poi>, s: seq<Poi>)
    requires forall p :: p in c ==> HasActiveWarning(p)
    requires forall p :: p in o ==> HasActiveWarning(p)
    requires forall p :: p in s ==> HasActiveWarning(p)
    ensures FetchWildlifeWarnings(Done(c), Done(o), Done(s), true) == FetchWildlifeWarnings(Done(c), Done(o), Done(s), false)
  {
    FilterConcat(c + o, s, HasActiveWarning);
    FilterConcat(c, o, HasActiveWarning);
    FilterAll(c, HasActiveWarning);
    FilterAll(o, HasActiveWarning);
    FilterAll(s, HasActiveWarning);
  }
}
