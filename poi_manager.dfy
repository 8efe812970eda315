/**
 * The POI manager (POIManager.ts): merging POIs from several providers by id, the filtered,
 * nearby and warning views, and which provider requests a load queues.
 */
module PoiManager {
  import opened Wrappers
  import opened Seqs
  import opened PoiTypes

  // ---------------------------------------------------------------------------------------------
  // Merging by id (mergeAndDeduplicate)

  /** `{ ...a, ...b }`: b's fields win, and an optional field absent from b keeps a's value. */
  function Spread(a: Poi, b: Poi): Poi
  {
    b.(elevation := if b.elevation.Some? then b.elevation else a.elevation,
       temporaryEvent := if b.temporaryEvent.Some? then b.temporaryEvent else a.temporaryEvent,
       eventStart := if b.eventStart.Some? then b.eventStart else a.eventStart,
       eventEnd := if b.eventEnd.Some? then b.eventEnd else a.eventEnd,
       isActive := if b.isActive.Some? then b.isActive else a.isActive,
       distance := if b.distance.Some? then b.distance else a.distance)
  }

  function Ids(s: seq<Poi>): (r: seq<string>)
    ensures |r| == |s| && forall i :: 0 <= i < |s| ==> r[i] == s[i].id
  {
    seq(|s|, i requires 0 <= i < |s| => s[i].id)
  }

  function HasId(k: string): Poi -> bool
  {
    (p: Poi) => p.id == k
  }

  /** The POIs sharing one id, merged left to right. */
  function SpreadAll(s: seq<Poi>): Poi
    requires |s| > 0
  {
    if |s| == 1 then s[0] else Spread(SpreadAll(s[..|s| - 1]), s[|s| - 1])
  }

  /** The last present value of an optional field along a sequence, if any. */
  function LastPresent<T>(s: seq<Option<T>>): Option<T>
  {
    if s == [] then None else if s[|s| - 1].Some? then s[|s| - 1] else LastPresent(s[..|s| - 1])
  }

  /**
   * A merged POI carries the required fields of the last POI of the group, and each optional
   * field from the last POI of the group that has it.
   */
  lemma SpreadAllFields(s: seq<Poi>)
    requires |s| > 0
    ensures var m, l := SpreadAll(s), s[|s| - 1];
      && m.id == l.id && m.category == l.category && m.subcategory == l.subcategory
      && m.latitude == l.latitude && m.longitude == l.longitude && m.source == l.source
      && m.properties == l.properties
      && m.elevation == LastPresent(seq(|s|, i requires 0 <= i < |s| => s[i].elevation))
      && m.temporaryEvent == LastPresent(seq(|s|, i requires 0 <= i < |s| => s[i].temporaryEvent))
      && m.eventStart == LastPresent(seq(|s|, i requires 0 <= i < |s| => s[i].eventStart))
      && m.eventEnd == LastPresent(seq(|s|, i requires 0 <= i < |s| => s[i].eventEnd))
      && m.isActive == LastPresent(seq(|s|, i requires 0 <= i < |s| => s[i].isActive))
      && m.distance == LastPresent(seq(|s|, i requires 0 <= i < |s| => s[i].distance))
  {
    SpreadAllRequired(s);
    SpreadAllEvents(s);
    SpreadAllOthers(s);
  }

  /** The required fields of a merged POI are those of the group's last POI. */
  lemma {:induction false} SpreadAllRequired(s: seq<Poi>)
    requires |s| > 0
    ensures var m, l := SpreadAll(s), s[|s| - 1];
      && m.id == l.id && m.category == l.category && m.subcategory == l.subcategory
      && m.latitude == l.latitude && m.longitude == l.longitude && m.source == l.source
      && m.properties == l.properties
  {
    if |s| > 1 {
      SpreadAllRequired(s[..|s| - 1]);
    }
  }

  /** The temporary-event fields of a merged POI come from the last POI of the group that has them. */
  lemma {:induction false} SpreadAllEvents(s: seq<Poi>)
    requires |s| > 0
    ensures var m := SpreadAll(s);
      && m.temporaryEvent == LastPresent(seq(|s|, i requires 0 <= i < |s| => s[i].temporaryEvent))
      && m.eventStart == LastPresent(seq(|s|, i requires 0 <= i < |s| => s[i].eventStart))
      && m.eventEnd == LastPresent(seq(|s|, i requires 0 <= i < |s| => s[i].eventEnd))
  {
    var n := |s|;
    var tv := seq(n, i requires 0 <= i < n => s[i].temporaryEvent);
    var sv := seq(n, i requires 0 <= i < n => s[i].eventStart);
    var nv := seq(n, i requires 0 <= i < n => s[i].eventEnd);
    if n == 1 {
      assert LastPresent(tv[..0]) == None && LastPresent(sv[..0]) == None && LastPresent(nv[..0]) == None;
    } else {
      var p := s[..n - 1];
      SpreadAllEvents(p);
      assert tv[..n - 1] == seq(n - 1, i requires 0 <= i < n - 1 => p[i].temporaryEvent);
      assert sv[..n - 1] == seq(n - 1, i requires 0 <= i < n - 1 => p[i].eventStart);
      assert nv[..n - 1] == seq(n - 1, i requires 0 <= i < n - 1 => p[i].eventEnd);
    }
  }

  /** The elevation, activity and distance of a merged POI come from the last POI of the group that has them. */
  lemma {:induction false} SpreadAllOthers(s: seq<Poi>)
    requires |s| > 0
    ensures var m := SpreadAll(s);
      && m.elevation == LastPresent(seq(|s|, i requires 0 <= i < |s| => s[i].elevation))
      && m.isActive == LastPresent(seq(|s|, i requires 0 <= i < |s| => s[i].isActive))
      && m.distance == LastPresent(seq(|s|, i requires 0 <= i < |s| => s[i].distance))
  {
    var n := |s|;
    var ev := seq(n, i requires 0 <= i < n => s[i].elevation);
    var av := seq(n, i requires 0 <= i < n => s[i].isActive);
    var dv := seq(n, i requires 0 <= i < n => s[i].distance);
    if n == 1 {
      assert LastPresent(ev[..0]) == None && LastPresent(av[..0]) == None && LastPresent(dv[..0]) == None;
    } else {
      var p := s[..n - 1];
      SpreadAllOthers(p);
      assert ev[..n - 1] == seq(n - 1, i requires 0 <= i < n - 1 => p[i].elevation);
      assert av[..n - 1] == seq(n - 1, i requires 0 <= i < n - 1 => p[i].isActive);
      assert dv[..n - 1] == seq(n - 1, i requires 0 <= i < n - 1 => p[i].distance);
    }
  }

  /** One `forEach` step: spread onto the entry with the same id, or append a new entry. */
  function MergeInsert(u: seq<Poi>, p: Poi): seq<Poi>
  {
    if p.id in Ids(u) then u[FirstIndex(Ids(u), p.id) := Spread(u[FirstIndex(Ids(u), p.id)], p)] else u + [p]
  }

  /** What mergeAndDeduplicate returns, as a function of its input. */
  function Merge(s: seq<Poi>): seq<Poi>
  {
    if s == [] then [] else MergeInsert(Merge(s[..|s| - 1]), s[|s| - 1])
  }

  lemma MergeInsertIds(u: seq<Poi>, p: Poi)
    ensures Ids(MergeInsert(u, p)) == if p.id in Ids(u) then Ids(u) else Ids(u) + [p.id]
  {
  }

  /** One POI per distinct input id, in first-occurrence order. */
  lemma {:induction false} MergeIds(s: seq<Poi>)
    ensures Ids(Merge(s)) == Distinct(Ids(s))
  {
    if s != [] {
      var p := s[..|s| - 1];
      MergeIds(p);
      MergeInsertIds(Merge(p), s[|s| - 1]);
      assert Ids(s)[..|s| - 1] == Ids(p);
    }
  }

  /** The inductive step of MergeValues: one more POI keeps every entry the spread of its group. */
  lemma MergeStep(u: seq<Poi>, p: seq<Poi>, y: Poi, j: int)
    requires NoDuplicates(Ids(u))
    requires forall k :: k in Ids(u) <==> k in Ids(p)
    requires forall j' :: 0 <= j' < |u| ==>
               |Filter(p, HasId(u[j'].id))| > 0 && u[j'] == SpreadAll(Filter(p, HasId(u[j'].id)))
    requires 0 <= j < |MergeInsert(u, y)|
    ensures var k := MergeInsert(u, y)[j].id;
      |Filter(p + [y], HasId(k))| > 0 && MergeInsert(u, y)[j] == SpreadAll(Filter(p + [y], HasId(k)))
  {
    var d := MergeInsert(u, y);
    var k := d[j].id;
    var g := Filter(p, HasId(k));
    FilterConcat(p, [y], HasId(k));
    assert Filter([y], HasId(k)) == (if y.id == k then [y] else []) by {
      assert [y][1..] == [];
    }
    var f := Filter(p + [y], HasId(k));
    if y.id in Ids(u) {
      var i := FirstIndex(Ids(u), y.id);
      if j == i {
        assert k == y.id && f == g + [y];
        assert f[..|f| - 1] == g;
      } else {
        assert Ids(u)[j] != Ids(u)[i];
        assert f == g;
      }
    } else if j < |u| {
      assert k in Ids(u);
      assert f == g;
    } else {
      assert k == y.id;
      forall q | q in p ensures !HasId(k)(q) {
        assert q.id in Ids(p) by { assert Ids(p)[FirstIndex(p, q)] == q.id; }
      }
      FilterNone(p, HasId(k));
      assert f == [y];
    }
  }

  /** The entry kept for an id is the spread of all input POIs with that id, in input order. */
  lemma {:induction false} MergeValues(s: seq<Poi>)
    ensures forall j :: 0 <= j < |Merge(s)| ==>
              |Filter(s, HasId(Merge(s)[j].id))| > 0 && Merge(s)[j] == SpreadAll(Filter(s, HasId(Merge(s)[j].id)))
  {
    if s != [] {
      var p, y := s[..|s| - 1], s[|s| - 1];
      MergeValues(p);
      MergeIds(p);
      DistinctSpec(Ids(p));
      assert s == p + [y];
      forall j | 0 <= j < |Merge(s)|
        ensures |Filter(s, HasId(Merge(s)[j].id))| > 0 && Merge(s)[j] == SpreadAll(Filter(s, HasId(Merge(s)[j].id)))
      {
        MergeStep(Merge(p), p, y, j);
      }
    }
  }

  /** A Map with insertion order `order` holding exactly the entries of `u`, position by position. */
  ghost predicate Represents(m: map<string, Poi>, order: seq<string>, u: seq<Poi>)
  {
    && order == Ids(u)
    && NoDuplicates(order)
    && (forall k :: k in m <==> k in order)
    && forall j :: 0 <= j < |order| ==> order[j] in m && m[order[j]] == u[j]
  }

  lemma RepresentsStep(m: map<string, Poi>, order: seq<string>, u: seq<Poi>, poi: Poi)
    requires Represents(m, order, u)
    ensures poi.id in m ==> Represents(m[poi.id := Spread(m[poi.id], poi)], order, MergeInsert(u, poi))
    ensures poi.id !in m ==> Represents(m[poi.id := poi], order + [poi.id], MergeInsert(u, poi))
  {
    if poi.id in m {
      var i := FirstIndex(order, poi.id);
      forall j | 0 <= j < |order| && j != i ensures order[j] != poi.id {
        assert order[j] != order[i];
      }
    }
  }

  /**
   * mergeAndDeduplicate: a Map from id to POI filled in one pass; a repeated id is replaced by the
   * spread of the existing entry and the newcomer. The Map's insertion order is `order`.
   */
  method MergeAndDeduplicate(pois: seq<Poi>) returns (merged: seq<Poi>)
    ensures merged == Merge(pois)
  {
    var poiMap: map<string, Poi> := map[];
    var order: seq<string> := [];
    var i := 0;
    while i < |pois|
      invariant 0 <= i <= |pois|
      invariant Represents(poiMap, order, Merge(pois[..i]))
    {
      var poi := pois[i];
      assert pois[..i + 1][..i] == pois[..i];
      RepresentsStep(poiMap, order, Merge(pois[..i]), poi);
      if poi.id in poiMap {
        var existingPoi := poiMap[poi.id];
        poiMap := poiMap[poi.id := Spread(existingPoi, poi)];
      } else {
        poiMap := poiMap[poi.id := poi];
        order := order + [poi.id];
      }
      i := i + 1;
    }
    assert pois[..i] == pois;
    merged := seq(|order|, j requires 0 <= j < |order| => poiMap[order[j]]);
  }

  // ---------------------------------------------------------------------------------------------
  // Derived views (filteredPOIs, warningPOIs, nearbyPOIs)

  /** filteredPOIs: the POIs whose category and subcategory are both enabled, in order. */
  function FilteredPois(all: seq<Poi>, categories: seq<string>, subcategories: seq<string>): (r: seq<Poi>)
    ensures forall p :: p in r <==> p in all && p.category in categories && p.subcategory in subcategories
    ensures forall p :: multiset(r)[p] == if p.category in categories && p.subcategory in subcategories then multiset(all)[p] else 0
    ensures Subsequence(r, all)
  {
    var keep := (p: Poi) => p.category in categories && p.subcategory in subcategories;
    forall p ensures p in Filter(all, keep) <==> p in all && keep(p) { FilterMembership(all, keep, p); }
    forall p ensures multiset(Filter(all, keep))[p] == if keep(p) then multiset(all)[p] else 0 { FilterCount(all, keep, p); }
    FilterSubsequence(all, keep);
    Filter(all, keep)
  }

  /** warningPOIs: the POIs of category 'warning' or carrying an active safety warning, in order. */
  function WarningPois(filtered: seq<Poi>): (r: seq<Poi>)
    ensures forall p :: p in r <==> p in filtered && (p.category == "warning" || HasActiveWarning(p))
    ensures forall p :: multiset(r)[p] == if p.category == "warning" || HasActiveWarning(p) then multiset(filtered)[p] else 0
    ensures Subsequence(r, filtered)
  {
    var keep := (p: Poi) => p.category == "warning" || HasActiveWarning(p);
    forall p ensures p in Filter(filtered, keep) <==> p in filtered && keep(p) { FilterMembership(filtered, keep, p); }
    forall p ensures multiset(Filter(filtered, keep))[p] == if keep(p) then multiset(filtered)[p] else 0 { FilterCount(filtered, keep, p); }
    FilterSubsequence(filtered, keep);
    Filter(filtered, keep)
  }

  /** The radius of the nearby view, in metres. */
  const NearbyRadius: real := 10000.0

  function Dist(p: Poi): real { p.distance.GetOr(0.0) }

  /** Non-decreasing by a numeric key. */
  predicate SortedBy<T>(key: T -> real, s: seq<T>)
  {
    forall i, j :: 0 <= i < j < |s| ==> key(s[i]) <= key(s[j])
  }

  predicate SortedByDistance(s: seq<Poi>)
  {
    SortedBy(Dist, s)
  }

  /** Inserting into a sorted list after every element whose key is at most x's (a stable sort step). */
  function InsertBy<T>(key: T -> real, x: T, s: seq<T>): (r: seq<T>)
    ensures multiset(r) == multiset(s) + multiset{x}
    ensures forall q :: q in r ==> q == x || q in s
  {
    if s == [] then [x]
    else if key(x) <= key(s[0]) then [x] + s
    else
      assert s == [s[0]] + s[1..];
      [s[0]] + InsertBy(key, x, s[1..])
  }

  lemma {:induction false} InsertSorted<T>(key: T -> real, x: T, s: seq<T>)
    requires SortedBy(key, s)
    ensures SortedBy(key, InsertBy(key, x, s))
  {
    if s != [] && key(x) > key(s[0]) {
      var t := InsertBy(key, x, s[1..]);
      InsertSorted(key, x, s[1..]);
      forall q | q in t ensures key(s[0]) <= key(q) {
        if q != x {
          var k :| 0 <= k < |s[1..]| && s[1..][k] == q;
          assert s[k + 1] == q;
        }
      }
      var r := [s[0]] + t;
      forall i, j | 0 <= i < j < |r| ensures key(r[i]) <= key(r[j]) {
        if i > 0 {
          assert r[i] == t[i - 1] && r[j] == t[j - 1];
        } else {
          assert r[j] in t;
        }
      }
    }
  }

  /** A stable insertion sort by a numeric key. */
  function SortBy<T>(key: T -> real, s: seq<T>): (r: seq<T>)
    ensures multiset(r) == multiset(s)
    ensures SortedBy(key, r)
  {
    if s == [] then [] else
      assert s == [s[0]] + s[1..];
      InsertSorted(key, s[0], SortBy(key, s[1..]));
      InsertBy(key, s[0], SortBy(key, s[1..]))
  }

  /** `Array.prototype.sort((a, b) => a.distance - b.distance)`, as a stable insertion sort. */
  function SortByDistance(s: seq<Poi>): (r: seq<Poi>)
    ensures multiset(r) == multiset(s)
    ensures SortedByDistance(r)
  {
    SortBy(Dist, s)
  }

  /** The filtered POIs within the radius, each annotated with its distance from the location. */
  function WithinRadius(filtered: seq<Poi>, at: Point, dist: (Point, Poi) -> real): seq<Poi>
  {
    Filter(seq(|filtered|, i requires 0 <= i < |filtered| => filtered[i].(distance := Some(dist(at, filtered[i])))),
           (p: Poi) => Dist(p) <= NearbyRadius)
  }

  /**
   * nearbyPOIs: empty without a location; otherwise the POIs within 10 km, annotated with their
   * distance and sorted by it. The Haversine distance is the parameter `dist`.
   */
  function NearbyPois(filtered: seq<Poi>, location: Option<Point>, dist: (Point, Poi) -> real): (r: seq<Poi>)
    ensures location.None? ==> r == []
    ensures forall i :: 0 <= i < |r| ==> r[i].distance.Some? && Dist(r[i]) <= NearbyRadius
    ensures SortedByDistance(r)
    ensures location.Some? ==> multiset(r) == multiset(WithinRadius(filtered, location.value, dist))
  {
    if location.None? then [] else
      var at := location.value;
      var m := seq(|filtered|, i requires 0 <= i < |filtered| => filtered[i].(distance := Some(dist(at, filtered[i]))));
      var keep := (p: Poi) => Dist(p) <= NearbyRadius;
      var w := Filter(m, keep);
      var r := SortByDistance(w);
      forall i | 0 <= i < |r| ensures r[i].distance.Some? && Dist(r[i]) <= NearbyRadius {
        assert r[i] in multiset(w);
        FilterMembership(m, keep, r[i]);
      }
      r
  }

  /** Every filtered POI within the radius is in the nearby view, annotated with its distance. */
  lemma NearbyComplete(filtered: seq<Poi>, at: Point, dist: (Point, Poi) -> real, p: Poi)
    requires p in filtered && dist(at, p) <= NearbyRadius
    ensures p.(distance := Some(dist(at, p))) in NearbyPois(filtered, Some(at), dist)
  {
    var m := seq(|filtered|, i requires 0 <= i < |filtered| => filtered[i].(distance := Some(dist(at, filtered[i]))));
    var q := p.(distance := Some(dist(at, p)));
    assert q == m[FirstIndex(filtered, p)];
    FilterMembership(m, (x: Poi) => Dist(x) <= NearbyRadius, q);
    assert q in multiset(WithinRadius(filtered, at, dist));
  }

  // ---------------------------------------------------------------------------------------------
  // Which provider requests a load queues

  /** A provider call queued by a load, with the argument it receives beyond the bounds. */
  datatype Request =
    | OsmPois(categories: seq<string>)
    | WaterSources | CampingSpots | MundraubPois | FoodsharingPois
    | ForageableItems(season: Option<string>)
    | Foodbanks | CommunityPois | AlternativeCommunities | CouchsurfingSpots
    | MedicalServices | SpiritualPlaces | AdventureSpots | LocalEvents
    | LocalFestivals(season: Option<string>)
    | WildlifeWarnings | WeatherWarnings | NaturalHazards | BikeServices | CrisisResources

  predicate StartsWith(s: string, prefix: string)
  {
    |prefix| <= |s| && s[..|prefix|] == prefix
  }

  /** `activeCats.some(cat => cat.startsWith(prefix))` */
  predicate AnyStartsWith(cats: seq<string>, prefix: string)
  {
    exists i :: 0 <= i < |cats| && StartsWith(cats[i], prefix)
  }

  /** The OSM query that the cave condition queues. */
  const CaveQuery: seq<string> := ["natural.cave_entrance"]

  /** The conditions of loadPOIsForBounds that test several categories at once. */
  predicate WantsForage(cats: seq<string>)
  {
    "food.ediblePlants" in cats || "food.berries" in cats || "food.herbs" in cats || "food.mushrooms" in cats
  }

  predicate WantsAlternatives(cats: seq<string>)
  {
    "community.alternativen" in cats || "community.communes" in cats || "community.ecovillage" in cats
  }

  predicate WantsMedical(cats: seq<string>)
  {
    "wellness.medical" in cats || "wellness.pharmacy" in cats
  }

  predicate WantsRetreats(cats: seq<string>)
  {
    "wellness.spiritual" in cats || "wellness.yoga" in cats
  }

  predicate WantsEvents(cats: seq<string>)
  {
    "culture.festival" in cats || "culture.seasonal" in cats
  }

  predicate WantsWeather(cats: seq<string>)
  {
    "warning.weather" in cats || "warning.flood" in cats
  }

  /** The pushes of one `if`: its requests when the condition holds, nothing otherwise. */
  function When(c: bool, r: seq<Request>): seq<Request>
  {
    if c then r else []
  }

  /** The survival block: water, wild camping, caves. */
  function SurvivalQueue(cats: seq<string>): seq<Request>
  {
    When("survival.water" in cats, [WaterSources])
    + When("survival.wildcamp" in cats, [CampingSpots])
    + When("survival.cave" in cats, [OsmPois(CaveQuery)])
  }

  /** The food block: Mundraub, foodsharing, foraging, food banks. */
  function FoodQueue(cats: seq<string>): seq<Request>
  {
    When("food.mundraub" in cats, [MundraubPois])
    + When("food.foodsharing" in cats, [FoodsharingPois])
    + When(WantsForage(cats), [ForageableItems(None)])
    + When("food.foodbank" in cats, [Foodbanks])
  }

  /** The community block: any community category, alternative communities, couchsurfing. */
  function CommunityQueue(cats: seq<string>): seq<Request>
  {
    When(AnyStartsWith(cats, "community"), [CommunityPois])
    + When(WantsAlternatives(cats), [AlternativeCommunities])
    + When("community.couchsurfing" in cats, [CouchsurfingSpots])
  }

  /** The wellness and adventure blocks: medical services, retreats, any adventure category. */
  function WellnessQueue(cats: seq<string>): seq<Request>
  {
    When(WantsMedical(cats), [MedicalServices])
    + When(WantsRetreats(cats), [SpiritualPlaces])
    + When(AnyStartsWith(cats, "adventure"), [AdventureSpots])
  }

  /** The culture block: events and festivals together, then spiritual places once more. */
  function CultureQueue(cats: seq<string>): seq<Request>
  {
    When(WantsEvents(cats), [LocalEvents, LocalFestivals(None)])
    + When("culture.spiritual" in cats, [SpiritualPlaces])
  }

  /** The warning and practical blocks: wildlife, weather, any warning category, bike services. */
  function WarningQueue(cats: seq<string>): seq<Request>
  {
    When("warning.wildlife" in cats, [WildlifeWarnings])
    + When(WantsWeather(cats), [WeatherWarnings])
    + When(AnyStartsWith(cats, "warning"), [NaturalHazards])
    + When("practical.bikeService" in cats, [BikeServices])
  }

  /**
   * What loadPOIsForBounds queues for a category list, in queue order: the OSM query for the whole
   * list always comes first and the crisis resources always come last.
   */
  function Queued(cats: seq<string>): (r: seq<Request>)
    ensures |r| >= 2 && r[0] == OsmPois(cats) && r[|r| - 1] == CrisisResources
  {
    [OsmPois(cats)] + SurvivalQueue(cats) + FoodQueue(cats) + CommunityQueue(cats)
    + WellnessQueue(cats) + CultureQueue(cats) + WarningQueue(cats) + [CrisisResources]
  }

  /** The condition under which a load queues a request, stated provider by provider. */
  predicate Asked(q: Request, cats: seq<string>)
  {
    match q
    case OsmPois(c) => c == cats || (c == CaveQuery && "survival.cave" in cats)
    case WaterSources => "survival.water" in cats
    case CampingSpots => "survival.wildcamp" in cats
    case MundraubPois => "food.mundraub" in cats
    case FoodsharingPois => "food.foodsharing" in cats
    case ForageableItems(s) => s == None && WantsForage(cats)
    case Foodbanks => "food.foodbank" in cats
    case CommunityPois => AnyStartsWith(cats, "community")
    case AlternativeCommunities => WantsAlternatives(cats)
    case CouchsurfingSpots => "community.couchsurfing" in cats
    case MedicalServices => WantsMedical(cats)
    case SpiritualPlaces => WantsRetreats(cats) || "culture.spiritual" in cats
    case AdventureSpots => AnyStartsWith(cats, "adventure")
    case LocalEvents => WantsEvents(cats)
    case LocalFestivals(s) => s == None && WantsEvents(cats)
    case WildlifeWarnings => "warning.wildlife" in cats
    case WeatherWarnings => WantsWeather(cats)
    case NaturalHazards => AnyStartsWith(cats, "warning")
    case BikeServices => "practical.bikeService" in cats
    case CrisisResources => true
  }

  /** A request is queued exactly when its provider's condition holds. */
  lemma QueuedSpec(cats: seq<string>, q: Request)
    ensures q in Queued(cats) <==> Asked(q, cats)
  {
    if q.OsmPois? || q.WaterSources? || q.CampingSpots? {
      SurvivalAsked(cats, q);
    } else if q.MundraubPois? || q.FoodsharingPois? || q.ForageableItems? || q.Foodbanks? {
      FoodAsked(cats, q);
    } else if q.CommunityPois? || q.AlternativeCommunities? || q.CouchsurfingSpots? {
      CommunityAsked(cats, q);
    } else if q.MedicalServices? || q.SpiritualPlaces? || q.AdventureSpots? {
      WellnessAsked(cats, q);
    } else if q.LocalEvents? || q.LocalFestivals? {
      CultureAsked(cats, q);
    } else {
      WarningAsked(cats, q);
    }
  }

  /** With an empty category list only the two unconditional requests are queued. */
  lemma QueuedNothing()
    ensures Queued([]) == [OsmPois([]), CrisisResources]
  {
    assert !AnyStartsWith([], "community") && !AnyStartsWith([], "adventure") && !AnyStartsWith([], "warning");
  }

  lemma SurvivalAsked(cats: seq<string>, q: Request)
    requires q.OsmPois? || q.WaterSources? || q.CampingSpots?
    ensures q in Queued(cats) <==> Asked(q, cats)
  {
    Blocks(cats, q);
  }

  lemma FoodAsked(cats: seq<string>, q: Request)
    requires q.MundraubPois? || q.FoodsharingPois? || q.ForageableItems? || q.Foodbanks?
    ensures q in Queued(cats) <==> Asked(q, cats)
  {
    Blocks(cats, q);
  }

  lemma CommunityAsked(cats: seq<string>, q: Request)
    requires q.CommunityPois? || q.AlternativeCommunities? || q.CouchsurfingSpots?
    ensures q in Queued(cats) <==> Asked(q, cats)
  {
    Blocks(cats, q);
  }

  lemma WellnessAsked(cats: seq<string>, q: Request)
    requires q.MedicalServices? || q.SpiritualPlaces? || q.AdventureSpots?
    ensures q in Queued(cats) <==> Asked(q, cats)
  {
    Blocks(cats, q);
  }

  lemma CultureAsked(cats: seq<string>, q: Request)
    requires q.LocalEvents? || q.LocalFestivals?
    ensures q in Queued(cats) <==> Asked(q, cats)
  {
    Blocks(cats, q);
  }

  lemma WarningAsked(cats: seq<string>, q: Request)
    requires q.WildlifeWarnings? || q.WeatherWarnings? || q.NaturalHazards? || q.BikeServices? || q.CrisisResources?
    ensures q in Queued(cats) <==> Asked(q, cats)
  {
    Blocks(cats, q);
  }

  /** Membership of the whole queue, block by block. */
  lemma QueuedParts(cats: seq<string>, q: Request)
    ensures q in Queued(cats) <==>
      || q == OsmPois(cats) || q in SurvivalQueue(cats) || q in FoodQueue(cats) || q in CommunityQueue(cats)
      || q in WellnessQueue(cats) || q in CultureQueue(cats) || q in WarningQueue(cats) || q == CrisisResources
  {
  }

  /** The membership facts of every block, for one request. */
  lemma Blocks(cats: seq<string>, q: Request)
    ensures q in Queued(cats) <==>
      || q == OsmPois(cats) || q in SurvivalQueue(cats) || q in FoodQueue(cats) || q in CommunityQueue(cats)
      || q in WellnessQueue(cats) || q in CultureQueue(cats) || q in WarningQueue(cats) || q == CrisisResources
    ensures q in SurvivalQueue(cats) <==>
      || (q == WaterSources && "survival.water" in cats)
      || (q == CampingSpots && "survival.wildcamp" in cats)
      || (q == OsmPois(CaveQuery) && "survival.cave" in cats)
    ensures q in FoodQueue(cats) <==>
      || (q == MundraubPois && "food.mundraub" in cats)
      || (q == FoodsharingPois && "food.foodsharing" in cats)
      || (q == ForageableItems(None) && WantsForage(cats))
      || (q == Foodbanks && "food.foodbank" in cats)
    ensures q in CommunityQueue(cats) <==>
      || (q == CommunityPois && AnyStartsWith(cats, "community"))
      || (q == AlternativeCommunities && WantsAlternatives(cats))
      || (q == CouchsurfingSpots && "community.couchsurfing" in cats)
    ensures q in WellnessQueue(cats) <==>
      || (q == MedicalServices && WantsMedical(cats))
      || (q == SpiritualPlaces && WantsRetreats(cats))
      || (q == AdventureSpots && AnyStartsWith(cats, "adventure"))
    ensures q in CultureQueue(cats) <==>
      || ((q == LocalEvents || q == LocalFestivals(None)) && WantsEvents(cats))
      || (q == SpiritualPlaces && "culture.spiritual" in cats)
    ensures q in WarningQueue(cats) <==>
      || (q == WildlifeWarnings && "warning.wildlife" in cats)
      || (q == WeatherWarnings && WantsWeather(cats))
      || (q == NaturalHazards && AnyStartsWith(cats, "warning"))
      || (q == BikeServices && "practical.bikeService" in cats)
  {
    QueuedParts(cats, q);
    SurvivalMembers(cats, q);
    FoodMembers(cats, q);
    CommunityMembers(cats, q);
    WellnessMembers(cats, q);
    CultureMembers(cats, q);
    WarningMembers(cats, q);
  }

  lemma SurvivalMembers(cats: seq<string>, q: Request)
    ensures q in SurvivalQueue(cats) <==>
      || (q == WaterSources && "survival.water" in cats)
      || (q == CampingSpots && "survival.wildcamp" in cats)
      || (q == OsmPois(CaveQuery) && "survival.cave" in cats)
  {
  }

  lemma FoodMembers(cats: seq<string>, q: Request)
    ensures q in FoodQueue(cats) <==>
      || (q == MundraubPois && "food.mundraub" in cats)
      || (q == FoodsharingPois && "food.foodsharing" in cats)
      || (q == ForageableItems(None) && WantsForage(cats))
      || (q == Foodbanks && "food.foodbank" in cats)
  {
  }

  lemma CommunityMembers(cats: seq<string>, q: Request)
    ensures q in CommunityQueue(cats) <==>
      || (q == CommunityPois && AnyStartsWith(cats, "community"))
      || (q == AlternativeCommunities && WantsAlternatives(cats))
      || (q == CouchsurfingSpots && "community.couchsurfing" in cats)
  {
  }

  lemma WellnessMembers(cats: seq<string>, q: Request)
    ensures q in WellnessQueue(cats) <==>
      || (q == MedicalServices && WantsMedical(cats))
      || (q == SpiritualPlaces && WantsRetreats(cats))
      || (q == AdventureSpots && AnyStartsWith(cats, "adventure"))
  {
  }

  lemma CultureMembers(cats: seq<string>, q: Request)
    ensures q in CultureQueue(cats) <==>
      || ((q == LocalEvents || q == LocalFestivals(None)) && WantsEvents(cats))
      || (q == SpiritualPlaces && "culture.spiritual" in cats)
  {
  }

  lemma WarningMembers(cats: seq<string>, q: Request)
    ensures q in WarningQueue(cats) <==>
      || (q == WildlifeWarnings && "warning.wildlife" in cats)
      || (q == WeatherWarnings && WantsWeather(cats))
      || (q == NaturalHazards && AnyStartsWith(cats, "warning"))
      || (q == BikeServices && "practical.bikeService" in cats)
  {
  }

  method SurvivalRequests(cats: seq<string>) returns (r: seq<Request>)
    ensures r == SurvivalQueue(cats)
  {
    r := [];
    if "survival.water" in cats { r := r + [WaterSources]; }
    if "survival.wildcamp" in cats { r := r + [CampingSpots]; }
    if "survival.cave" in cats { r := r + [OsmPois(["natural.cave_entrance"])]; }
  }

  method FoodRequests(cats: seq<string>) returns (r: seq<Request>)
    ensures r == FoodQueue(cats)
  {
    r := [];
    if "food.mundraub" in cats { r := r + [MundraubPois]; }
    if "food.foodsharing" in cats { r := r + [FoodsharingPois]; }
    if "food.ediblePlants" in cats || "food.berries" in cats || "food.herbs" in cats || "food.mushrooms" in cats {
      r := r + [ForageableItems(None)];
    }
    if "food.foodbank" in cats { r := r + [Foodbanks]; }
  }

  method CommunityRequests(cats: seq<string>) returns (r: seq<Request>)
    ensures r == CommunityQueue(cats)
  {
    r := [];
    if AnyStartsWith(cats, "community") { r := r + [CommunityPois]; }
    if "community.alternativen" in cats || "community.communes" in cats || "community.ecovillage" in cats {
      r := r + [AlternativeCommunities];
    }
    if "community.couchsurfing" in cats { r := r + [CouchsurfingSpots]; }
  }

  method WellnessRequests(cats: seq<string>) returns (r: seq<Request>)
    ensures r == WellnessQueue(cats)
  {
    r := [];
    if "wellness.medical" in cats || "wellness.pharmacy" in cats { r := r + [MedicalServices]; }
    if "wellness.spiritual" in cats || "wellness.yoga" in cats { r := r + [SpiritualPlaces]; }
    if AnyStartsWith(cats, "adventure") { r := r + [AdventureSpots]; }
  }

  method CultureRequests(cats: seq<string>) returns (r: seq<Request>)
    ensures r == CultureQueue(cats)
  {
    r := [];
    if "culture.festival" in cats || "culture.seasonal" in cats {
      r := r + [LocalEvents];
      r := r + [LocalFestivals(None)];
    }
    if "culture.spiritual" in cats { r := r + [SpiritualPlaces]; }
  }

  method WarningRequests(cats: seq<string>) returns (r: seq<Request>)
    ensures r == WarningQueue(cats)
  {
    r := [];
    if "warning.wildlife" in cats { r := r + [WildlifeWarnings]; }
    if "warning.weather" in cats || "warning.flood" in cats { r := r + [WeatherWarnings]; }
    if AnyStartsWith(cats, "warning") { r := r + [NaturalHazards]; }
    if "practical.bikeService" in cats { r := r + [BikeServices]; }
  }

  /**
   * The request list of loadPOIsForBounds, pushed in the source's order (its survival, food,
   * community, wellness and adventure, culture, and warning and practical blocks are the helpers).
   */
  method BoundsRequests(cats: seq<string>) returns (requests: seq<Request>)
    ensures requests == Queued(cats)
  {
    requests := [OsmPois(cats)];
    var survival := SurvivalRequests(cats);
    requests := requests + survival;
    var food := FoodRequests(cats);
    requests := requests + food;
    var community := CommunityRequests(cats);
    requests := requests + community;
    var wellness := WellnessRequests(cats);
    requests := requests + wellness;
    var culture := CultureRequests(cats);
    requests := requests + culture;
    var warning := WarningRequests(cats);
    requests := requests + warning;
    requests := requests + [CrisisResources];
  }

  // ---------------------------------------------------------------------------------------------
  // Seasons (loadSeasonalPOIs)

  /** Months 3-5 spring, 6-8 summer, 9-11 autumn, anything else winter. */
  function Season(month: int): (s: string)
    ensures s == "spring" <==> 3 <= month <= 5
    ensures s == "summer" <==> 6 <= month <= 8
    ensures s == "autumn" <==> 9 <= month <= 11
    ensures s == "winter" <==> !(3 <= month <= 11)
  {
    if 3 <= month <= 5 then "spring"
    else if 6 <= month <= 8 then "summer"
    else if 9 <= month <= 11 then "autumn"
    else "winter"
  }

  /** The request list of loadSeasonalPOIs for a month, built push by push. */
  method SeasonalRequests(month: int) returns (requests: seq<Request>)
    ensures var season := Season(month);
      && |requests| == (if season == "spring" then 2 else 3)
      && requests[0] == OsmPois(["seasonal." + season])
      && requests[1] == ForageableItems(Some(season))
      && (season != "spring" ==> requests[2] == LocalFestivals(Some(season)))
  {
    var season := Season(month);
    requests := [OsmPois(["seasonal." + season])];
    if season == "spring" {
      requests := requests + [ForageableItems(Some("spring"))];
    } else if season == "summer" {
      requests := requests + [ForageableItems(Some("summer"))];
      requests := requests + [LocalFestivals(Some("summer"))];
    } else if season == "autumn" {
      requests := requests + [ForageableItems(Some("autumn"))];
      requests := requests + [LocalFestivals(Some("autumn"))];
    } else if season == "winter" {
      requests := requests + [ForageableItems(Some("winter"))];
      requests := requests + [LocalFestivals(Some("winter"))];
    }
  }

  // ---------------------------------------------------------------------------------------------
  // Running the requests

  /** The POI store (`allPOIs`) that loads write into. */
  class PoiStore {
    var allPois: seq<Poi>

    constructor ()
      ensures allPois == []
    {
      allPois := [];
    }

    /**
     * loadPOIsForBounds with an explicit category list: queue the requests, run them, merge the
     * flattened results by id, store and return the merge. A throwing provider rejects the call
     * and leaves the store as it was.
     */
    method LoadPoisForBounds(cats: seq<string>, run: Request -> Outcome<seq<Poi>>) returns (r: Outcome<seq<Poi>>)
      modifies this
      ensures var results := RunAll(Queued(cats), run);
        && (results.Threw? ==> r.Threw? && allPois == old(allPois))
        && (results.Done? ==> r == Done(Merge(Flatten(results.value))) && allPois == r.value)
    {
      var requests := BoundsRequests(cats);
      var results := RunAll(requests, run);
      if results.Threw? {
        return Threw;
      }
      var merged := MergeAndDeduplicate(Flatten(results.value));
      allPois := merged;
      r := Done(merged);
    }
  }

  /** loadSeasonalPOIs: the seasonal requests' results, concatenated without merging. */
  method LoadSeasonalPois(month: int, run: Request -> Outcome<seq<Poi>>) returns (r: Outcome<seq<Poi>>)
    ensures var season := Season(month);
      var req := [OsmPois(["seasonal." + season]), ForageableItems(Some(season))]
        + (if season == "spring" then [] else [LocalFestivals(Some(season))]);
      r == match RunAll(req, run) case Threw => Threw case Done(rs) => Done(Flatten(rs))
  {
    var requests := SeasonalRequests(month);
    var season := Season(month);
    assert requests == [OsmPois(["seasonal." + season]), ForageableItems(Some(season))]
        + (if season == "spring" then [] else [LocalFestivals(Some(season))]);
    var results := RunAll(requests, run);
    if results.Threw? {
      return Threw;
    }
    r := Done(Flatten(results.value));
  }
}
