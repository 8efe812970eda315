/**
 * Drinking-water sources (waterSourcesApi.ts): three mock providers, their concatenation, and the
 * coordinate-based deduplication that prefers official over OSM over community entries.
 */
module WaterSources {
  import opened Wrappers
  import opened Seqs
  import opened PoiTypes

  /**
   * The coordinate key: latitude and longitude each rendered with five decimals. The rendering
   * (`Number.prototype.toFixed(5)`) is floating point and is the parameter `fixed`.
   */
  type CoordKey = (string, string)

  function Key(p: Poi, fixed: real -> string): CoordKey
  {
    (fixed(p.latitude), fixed(p.longitude))
  }

  function Keys(u: seq<Poi>, fixed: real -> string): (ks: seq<CoordKey>)
    ensures |ks| == |u| && forall i :: 0 <= i < |u| ==> ks[i] == Key(u[i], fixed)
  {
    seq(|u|, i requires 0 <= i < |u| => Key(u[i], fixed))
  }

  /** `uniqueSources.findIndex(...)`: the first position holding the key, or -1. */
  function IndexOfKey(u: seq<Poi>, k: CoordKey, fixed: real -> string): (r: int)
    ensures -1 <= r < |u|
    ensures r >= 0 ==> Key(u[r], fixed) == k && forall j :: 0 <= j < r ==> Key(u[j], fixed) != k
    ensures r < 0 <==> forall j :: 0 <= j < |u| ==> Key(u[j], fixed) != k
  {
    if u == [] then -1
    else if Key(u[0], fixed) == k then 0
    else
      var r := IndexOfKey(u[1..], k, fixed);
      assert forall j :: 1 <= j < |u| ==> u[j] == u[1..][j - 1];
      if r < 0 then -1 else r + 1
  }

  /** `new Date(lastVerified || 0)`: a missing date counts as the epoch. */
  function VerifiedAt(p: Poi): Instant
  {
    p.properties.lastVerified.GetOr(0)
  }

  /** Whether an incoming source displaces the kept one at the same coordinates. */
  predicate Replaces(incoming: Poi, existing: Poi)
  {
    if incoming.source == "official" && existing.source != "official" then true
    else if incoming.source == "osm" && existing.source == "community" then true
    else if incoming.source == existing.source then VerifiedAt(incoming) > VerifiedAt(existing)
    else false
  }

  /** No source displaces itself, and displacement chains compose, for every source label. */
  lemma ReplacesStrictOrder(a: Poi, b: Poi, c: Poi)
    ensures !Replaces(a, a)
    ensures Replaces(a, b) && Replaces(b, c) ==> Replaces(a, c)
  {
  }

  /** One step of the deduplication: append a new key, or let the newcomer displace the kept entry. */
  function Insert(u: seq<Poi>, p: Poi, fixed: real -> string): seq<Poi>
  {
    var j := IndexOfKey(u, Key(p, fixed), fixed);
    if j < 0 then u + [p]
    else if Replaces(p, u[j]) then u[j := p] else u
  }

  /** What removeDuplicateWaterSources returns, as a function of its input. */
  function Dedup(s: seq<Poi>, fixed: real -> string): seq<Poi>
  {
    if s == [] then [] else Insert(Dedup(s[..|s| - 1], fixed), s[|s| - 1], fixed)
  }

  lemma InsertKeys(u: seq<Poi>, p: Poi, fixed: real -> string)
    ensures Keys(Insert(u, p, fixed), fixed) ==
      if Key(p, fixed) in Keys(u, fixed) then Keys(u, fixed) else Keys(u, fixed) + [Key(p, fixed)]
  {
    var k := Key(p, fixed);
    var j := IndexOfKey(u, k, fixed);
    if j >= 0 {
      assert Keys(u, fixed)[j] == k;
    }
  }

  /**
   * The kept keys are the input's keys with repeats removed, in first-occurrence order: each
   * coordinate appears once, every input coordinate is represented, and order follows first sight.
   */
  lemma {:induction false} DedupKeys(s: seq<Poi>, fixed: real -> string)
    ensures Keys(Dedup(s, fixed), fixed) == Distinct(Keys(s, fixed))
  {
    if s != [] {
      var p := s[..|s| - 1];
      DedupKeys(p, fixed);
      InsertKeys(Dedup(p, fixed), s[|s| - 1], fixed);
      assert Keys(s, fixed)[..|s| - 1] == Keys(p, fixed);
    }
  }

  /** Every kept entry is one of the input entries. */
  lemma {:induction false} DedupFromInput(s: seq<Poi>, fixed: real -> string)
    ensures forall q :: q in Dedup(s, fixed) ==> q in s
  {
    if s != [] {
      var p := s[..|s| - 1];
      DedupFromInput(p, fixed);
      var u := Dedup(p, fixed);
      var j := IndexOfKey(u, Key(s[|s| - 1], fixed), fixed);
      forall q | q in Dedup(s, fixed) ensures q in s {
        if q != s[|s| - 1] {
          assert q in u;
          assert q in p;
        }
      }
    }
  }

  /** The inductive step of DedupSurvivor: one more entry keeps the survivors maximal. */
  lemma SurvivorStep(u: seq<Poi>, p: seq<Poi>, y: Poi, fixed: real -> string, x: Poi, j: int)
    requires NoDuplicates(Keys(u, fixed))
    requires forall k :: k in Keys(u, fixed) <==> k in Keys(p, fixed)
    requires forall x', j' :: x' in p && 0 <= j' < |u| && Key(u[j'], fixed) == Key(x', fixed) ==> !Replaces(x', u[j'])
    requires x in p + [y] && 0 <= j < |Insert(u, y, fixed)| && Key(Insert(u, y, fixed)[j], fixed) == Key(x, fixed)
    ensures !Replaces(x, Insert(u, y, fixed)[j])
  {
    var d := Insert(u, y, fixed);
    var i := IndexOfKey(u, Key(y, fixed), fixed);
    ReplacesStrictOrder(x, y, if 0 <= i < |u| then u[i] else y);
    if x != y {
      assert x in p;
      assert Key(x, fixed) in Keys(p, fixed) by { assert Keys(p, fixed)[FirstIndex(p, x)] == Key(x, fixed); }
    }
    if i >= 0 && j != i && j < |u| {
      assert Keys(u, fixed)[j] != Keys(u, fixed)[i];
    }
  }

  /**
   * No input entry displaces the entry kept at its coordinates: the survivor is maximal under
   * the preference (official, then OSM over community, then the later verification date).
   */
  lemma {:induction false} DedupSurvivor(s: seq<Poi>, fixed: real -> string)
    ensures forall x, j :: x in s && 0 <= j < |Dedup(s, fixed)| && Key(Dedup(s, fixed)[j], fixed) == Key(x, fixed)
              ==> !Replaces(x, Dedup(s, fixed)[j])
  {
    if s != [] {
      var p, y := s[..|s| - 1], s[|s| - 1];
      DedupSurvivor(p, fixed);
      DedupKeys(p, fixed);
      DistinctSpec(Keys(p, fixed));
      assert s == p + [y];
      forall x, j | x in s && 0 <= j < |Dedup(s, fixed)| && Key(Dedup(s, fixed)[j], fixed) == Key(x, fixed)
        ensures !Replaces(x, Dedup(s, fixed)[j])
      {
        SurvivorStep(Dedup(p, fixed), p, y, fixed, x, j);
      }
    }
  }

  /**
   * The displacement test is strict on dates: of two entries with the same coordinates, source and
   * verification date, the later one never displaces the earlier, so it is not kept (unless the same
   * value already occurred before it).
   */
  lemma TieKeepsEarlier(s: seq<Poi>, fixed: real -> string, i: int, k: int)
    requires 0 <= i < k < |s| && Key(s[i], fixed) == Key(s[k], fixed)
    requires s[i].source == s[k].source && VerifiedAt(s[i]) == VerifiedAt(s[k]) && s[k] !in s[..k]
    ensures s[k] !in Dedup(s, fixed)
  {
    TieKeepsEarlierUpTo(s, fixed, i, k, |s|);
    assert s[..|s|] == s;
  }

  /** TieKeepsEarlier for every prefix from position k on. */
  lemma {:induction false} TieKeepsEarlierUpTo(s: seq<Poi>, fixed: real -> string, i: int, k: int, n: int)
    requires 0 <= i < k < |s| && Key(s[i], fixed) == Key(s[k], fixed)
    requires s[i].source == s[k].source && VerifiedAt(s[i]) == VerifiedAt(s[k]) && s[k] !in s[..k]
    requires k <= n <= |s|
    ensures s[k] !in Dedup(s[..n], fixed)
    decreases n
  {
    if n == k {
      DedupFromInput(s[..k], fixed);
    } else {
      TieKeepsEarlierUpTo(s, fixed, i, k, n - 1);
      var p := s[..n - 1];
      assert s[..n][..n - 1] == p;
      var u := Dedup(p, fixed);
      var y := s[n - 1];
      if y == s[k] {
        var key := Key(y, fixed);
        assert s[i] in p;
        assert key in Keys(p, fixed) by { assert Keys(p, fixed)[i] == key; }
        DedupKeys(p, fixed);
        DistinctSpec(Keys(p, fixed));
        var j := IndexOfKey(u, key, fixed);
        DedupSurvivor(p, fixed);
        assert !Replaces(s[i], u[j]);
        assert Dedup(s[..n], fixed) == u;
      }
    }
  }

  /** An official entry always wins its coordinates. */
  lemma OfficialWins(s: seq<Poi>, fixed: real -> string, x: Poi)
    requires x in s && x.source == "official"
    ensures exists j :: 0 <= j < |Dedup(s, fixed)| && Key(Dedup(s, fixed)[j], fixed) == Key(x, fixed)
              && Dedup(s, fixed)[j].source == "official"
  {
    var d := Dedup(s, fixed);
    DedupKeys(s, fixed);
    DistinctSpec(Keys(s, fixed));
    assert Key(x, fixed) in Keys(s, fixed);
    assert Key(x, fixed) in Keys(d, fixed);
    var j :| 0 <= j < |d| && Keys(d, fixed)[j] == Key(x, fixed);
    DedupSurvivor(s, fixed);
    assert !Replaces(x, d[j]);
  }

  /** removeDuplicateWaterSources: one pass with a set of seen keys and in-place replacement. */
  method RemoveDuplicateWaterSources(sources: seq<Poi>, fixed: real -> string) returns (unique: seq<Poi>)
    ensures unique == Dedup(sources, fixed)
  {
    unique := [];
    var coordinateSet: set<CoordKey> := {};
    var i := 0;
    while i < |sources|
      invariant 0 <= i <= |sources|
      invariant unique == Dedup(sources[..i], fixed)
      invariant forall k :: k in coordinateSet <==> k in Keys(unique, fixed)
    {
      var source := sources[i];
      var coordKey := Key(source, fixed);
      ghost var before := unique;
      assert sources[..i + 1][..i] == sources[..i];
      InsertKeys(unique, source, fixed);
      assert coordKey in coordinateSet <==> IndexOfKey(unique, coordKey, fixed) >= 0;
      if coordKey !in coordinateSet {
        coordinateSet := coordinateSet + {coordKey};
        unique := unique + [source];
      } else {
        var existingIndex := IndexOfKey(unique, coordKey, fixed);
        if existingIndex >= 0 {
          var existing := unique[existingIndex];
          if source.source == "official" && existing.source != "official" {
            unique := unique[existingIndex := source];
          } else if source.source == "osm" && existing.source == "community" {
            unique := unique[existingIndex := source];
          } else if source.source == existing.source {
            if VerifiedAt(source) > VerifiedAt(existing) {
              unique := unique[existingIndex := source];
            }
          }
        }
      }
      assert unique == Insert(before, source, fixed);
      i := i + 1;
    }
    assert sources[..i] == sources;
  }

  // ---------------------------------------------------------------------------------------------
  // The providers (mock data) and getWaterSources

  function WaterPoi(id: string, at: Point, elevation: int, source: string, verified: Instant): Poi
  {
    MockPoi(id, "survival", "water", at, elevation, source, Properties(None, Some(verified), None))
  }

  /** fetchOSMWaterSources: a tap and a spring placed relative to the centre of the box. */
  function FetchOsmWaterSources(b: Bounds, tag: string, now: Instant): (r: seq<Poi>)
    ensures |r| == 2 && forall p :: p in r ==> p.source == "osm" && p.subcategory == "water"
  {
    var c := Center(b);
    [ WaterPoi("water-osm-1-" + tag, Point(c.lat + 0.01, c.lon - 0.005), 320, "osm", now - 45 * DayMs),
      WaterPoi("water-osm-2-" + tag, Point(c.lat - 0.015, c.lon + 0.01), 450, "osm", now - 90 * DayMs) ]
  }

  /** fetchOfficialWaterSources: a fountain at a random point of the box, present only when the draw exceeds 0.5. */
  function FetchOfficialWaterSources(tag: string, now: Instant, at: Point, gate: real): (r: seq<Poi>)
    ensures |r| == (if gate > 0.5 then 1 else 0)
    ensures forall p :: p in r ==> p.source == "official" && p.subcategory == "water"
  {
    if gate > 0.5 then [WaterPoi("water-official-1-" + tag, at, 280, "official", now - 15 * DayMs)]
    else []
  }

  /** fetchCommunityWaterSources: a spring and a brook at two random points of the box. */
  function FetchCommunityWaterSources(tag: string, now: Instant, at1: Point, at2: Point): (r: seq<Poi>)
    ensures |r| == 2 && forall p :: p in r ==> p.source == "community" && p.subcategory == "water"
  {
    [ WaterPoi("water-community-1-" + tag, at1, 620, "community", now - 60 * DayMs),
      WaterPoi("water-community-2-" + tag, at2, 540, "community", now - 20 * DayMs) ]
  }

  /** getWaterSources: the three providers' results concatenated and deduplicated; a failure of any yields []. */
  method GetWaterSources(osm: Outcome<seq<Poi>>, official: Outcome<seq<Poi>>, community: Outcome<seq<Poi>>,
                         fixed: real -> string)
    returns (r: seq<Poi>)
    ensures r == if osm.Threw? || official.Threw? || community.Threw? then []
                 else Dedup(osm.value + official.value + community.value, fixed)
  {
    if osm.Threw? || official.Threw? || community.Threw? {
      return [];
    }
    var allSources := osm.value + official.value + community.value;
    r := RemoveDuplicateWaterSources(allSources, fixed);
  }
}
