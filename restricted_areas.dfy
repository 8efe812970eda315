/**
 * Restricted access areas (restrictedAreasApi.ts): a category filter chooses which of five mock
 * providers are queued, their results are flattened and repeated elements removed. The temporary
 * closure is scheduled for the coming Saturday 9:00 until Sunday 18:00.
 * Random draws and positions, the current instant and the current local day are parameters.
 */
module RestrictedAreas {
  import opened Wrappers
  import opened Seqs
  import opened PoiTypes

  /** The filter used when the caller gives none: all six categories. */
  const DefaultCategories: seq<string> := ["military", "drone", "private", "nature", "wildlife", "temporary"]

  /** The five providers, in the order they are queued. */
  datatype Fetcher = Military | Drone | Private | Protected | Temporary

  const AllFetchers: seq<Fetcher> := [Military, Drone, Private, Protected, Temporary]

  /** A provider's position in queueing order. */
  function Rank(f: Fetcher): nat
  {
    match f
    case Military => 0
    case Drone => 1
    case Private => 2
    case Protected => 3
    case Temporary => 4
  }

  /** Which categories enable a provider: protected areas answer to either 'nature' or 'wildlife'. */
  predicate Enabled(f: Fetcher, cats: seq<string>)
  {
    match f
    case Military => "military" in cats
    case Drone => "drone" in cats
    case Private => "private" in cats
    case Protected => "nature" in cats || "wildlife" in cats
    case Temporary => "temporary" in cats
  }

  /** `Enabled` for a fixed filter, as a predicate value. */
  function EnabledBy(cats: seq<string>): Fetcher -> bool
  {
    (f: Fetcher) => Enabled(f, cats)
  }

  /** The providers queued for a filter: the enabled ones, in queueing order. */
  function Queued(cats: seq<string>): seq<Fetcher>
  {
    Filter(AllFetchers, EnabledBy(cats))
  }

  /** The providers of a list appear in strictly increasing queueing order. */
  predicate Ascending(s: seq<Fetcher>)
  {
    forall i, j :: 0 <= i < j < |s| ==> Rank(s[i]) < Rank(s[j])
  }

  /** Filtering an ascending list of providers keeps it ascending. */
  lemma {:induction false} FilterRanked(s: seq<Fetcher>, cats: seq<string>)
    requires Ascending(s)
    ensures Ascending(Filter(s, EnabledBy(cats)))
  {
    if s != [] {
      var en := EnabledBy(cats);
      var t := Filter(s[1..], en);
      FilterRanked(s[1..], cats);
      forall g | g in t ensures Rank(s[0]) < Rank(g) {
        FilterMembership(s[1..], en, g);
        var k :| 0 <= k < |s[1..]| && s[1..][k] == g;
        assert s[k + 1] == g;
      }
    }
  }

  /** A provider is queued exactly when its category is enabled. */
  lemma QueuedMembership(cats: seq<string>, f: Fetcher)
    ensures f in Queued(cats) <==> Enabled(f, cats)
  {
    FilterMembership(AllFetchers, EnabledBy(cats), f);
  }

  /** Providers are queued in queueing order, so none is queued twice. */
  lemma QueuedOrdered(cats: seq<string>)
    ensures Ascending(Queued(cats))
  {
    assert Ascending(AllFetchers) by {
      forall i, j | 0 <= i < j < |AllFetchers| ensures Rank(AllFetchers[i]) < Rank(AllFetchers[j]) {
        assert Rank(AllFetchers[i]) == i && Rank(AllFetchers[j]) == j;
      }
    }
    FilterRanked(AllFetchers, cats);
  }

  /** An empty filter (which, being an array, is kept rather than replaced by the default) queues nothing. */
  lemma QueuedEmpty()
    ensures Queued([]) == []
  {
    PushedIsQueued([]);
  }

  /** The default filter queues all five providers. */
  lemma QueuedDefault()
    ensures Queued(DefaultCategories) == AllFetchers
  {
    PushedIsQueued(DefaultCategories);
    var d := DefaultCategories;
    assert d[0] == "military" && d[1] == "drone" && d[2] == "private" && d[3] == "nature" && d[5] == "temporary";
  }

  /** Concatenation is associative: five pieces grouped from the left or from the right. */
  lemma Regroup<T>(a: seq<T>, b: seq<T>, c: seq<T>, d: seq<T>, e: seq<T>)
    ensures a + b + c + d + e == a + (b + (c + (d + e)))
  {
    assert a + b + c == a + (b + c);
    assert a + b + c + d == a + (b + c + d);
    assert b + c + d == b + (c + d);
    assert a + b + c + d + e == a + (b + c + d + e);
    assert b + c + d + e == b + (c + d + e);
    assert c + d + e == c + (d + e);
  }

  /** A filter over five elements, written out element by element. */
  lemma FilterFive<T>(a: T, b: T, c: T, d: T, e: T, f: T -> bool)
    ensures Filter([a, b, c, d, e], f) ==
      (if f(a) then [a] else []) + ((if f(b) then [b] else []) + ((if f(c) then [c] else [])
      + ((if f(d) then [d] else []) + (if f(e) then [e] else []))))
  {
    var s := [a, b, c, d, e];
    assert s[1..] == [b, c, d, e] && s[2..] == [c, d, e] && s[3..] == [d, e] && s[4..] == [e];
    assert Filter(s[4..], f) == (if f(e) then [e] else []) + Filter(s[5..], f);
    assert Filter(s[3..], f) == (if f(d) then [d] else []) + Filter(s[4..], f);
    assert Filter(s[2..], f) == (if f(c) then [c] else []) + Filter(s[3..], f);
    assert Filter(s[1..], f) == (if f(b) then [b] else []) + Filter(s[2..], f);
  }

  /** The five conditional pushes of fetchRestrictedAreas, in source order. */
  function Pushed(cats: seq<string>): seq<Fetcher>
  {
    (if "military" in cats then [Military] else []) + (if "drone" in cats then [Drone] else [])
    + (if "private" in cats then [Private] else []) + (if "nature" in cats || "wildlife" in cats then [Protected] else [])
    + (if "temporary" in cats then [Temporary] else [])
  }

  /** The pushes queue exactly the enabled providers, in queueing order. */
  lemma PushedIsQueued(cats: seq<string>)
    ensures Pushed(cats) == Queued(cats)
  {
    var en := EnabledBy(cats);
    var m, d, p, n, t := en(Military), en(Drone), en(Private), en(Protected), en(Temporary);
    assert m == ("military" in cats) && d == ("drone" in cats) && p == ("private" in cats);
    assert n == ("nature" in cats || "wildlife" in cats) && t == ("temporary" in cats);
    var ms, ds, ps, ns, ts := (if m then [Military] else []), (if d then [Drone] else []),
      (if p then [Private] else []), (if n then [Protected] else []), (if t then [Temporary] else []);
    assert Pushed(cats) == ms + ds + ps + ns + ts;
    Regroup(ms, ds, ps, ns, ts);
    FilterFive(Military, Drone, Private, Protected, Temporary, en);
  }

  /** The request list of fetchRestrictedAreas: one conditional push per provider. */
  method QueueRequests(cats: seq<string>) returns (requests: seq<Fetcher>)
    ensures requests == Queued(cats)
  {
    ghost var military := if "military" in cats then [Military] else [];
    ghost var drone := if "drone" in cats then [Drone] else [];
    ghost var private := if "private" in cats then [Private] else [];
    ghost var protected := if "nature" in cats || "wildlife" in cats then [Protected] else [];
    requests := [];
    if "military" in cats {
      requests := requests + [Military];
    }
    assert requests == military;
    if "drone" in cats {
      requests := requests + [Drone];
    }
    assert requests == military + drone;
    if "private" in cats {
      requests := requests + [Private];
    }
    assert requests == military + drone + private;
    if "nature" in cats || "wildlife" in cats {
      requests := requests + [Protected];
    }
    assert requests == military + drone + private + protected;
    if "temporary" in cats {
      requests := requests + [Temporary];
    }
    assert requests == Pushed(cats);
    PushedIsQueued(cats);
  }

  /**
   * fetchRestrictedAreas: queue the enabled providers (all six categories when no filter is given),
   * run them, and return the flattened results with repeats removed; a failing provider yields [].
   */
  method FetchRestrictedAreas(categoryFilter: Option<seq<string>>, run: Fetcher -> Outcome<seq<Poi>>)
    returns (r: seq<Poi>)
    ensures var results := RunAll(Queued(categoryFilter.GetOr(DefaultCategories)), run);
      && (results.Threw? ==> r == [])
      && (results.Done? ==> r == Distinct(Flatten(results.value)))
    ensures NoDuplicates(r)
    ensures categoryFilter == Some([]) ==> r == []
  {
    var cats := categoryFilter.GetOr(DefaultCategories);
    var requests := QueueRequests(cats);
    var results := RunAll(requests, run);
    if results.Threw? {
      return [];
    }
    r := Distinct(Flatten(results.value));
    DistinctSpec(Flatten(results.value));
    if categoryFilter == Some([]) {
      QueuedEmpty();
    }
  }

  // The "next Saturday" schedule of the temporary closure

  /** The weekday of a local day number, Sunday = 0 as `Date.getDay`; day 0 (1 January 1970) was a Thursday. */
  function Weekday(day: int): (w: int)
    ensures 0 <= w <= 6
  {
    (day + 4) % 7
  }

  /** JavaScript's `%`, whose result takes the sign of the dividend. */
  function JsRem(a: int, b: int): int
    requires b > 0
  {
    if a >= 0 then a % b else -((-a) % b)
  }

  /** `(6 - day + 7) % 7`: for a real weekday this is 0..6 days ahead and lands on a Saturday. */
  function DaysUntilSaturday(weekday: int): (d: int)
    ensures 0 <= weekday <= 6 ==> 0 <= d <= 6 && (weekday + d) % 7 == 6
  {
    JsRem(6 - weekday + 7, 7)
  }

  /** The closure window: Saturday 9:00 of the current week until the following day 18:00. */
  function EventWindow(today: int): (w: (Moment, Moment))
    ensures today <= w.0.day <= today + 6 && Weekday(w.0.day) == 6 && w.0.hour == 9
    ensures w.1.day == w.0.day + 1 && Weekday(w.1.day) == 0 && w.1.hour == 18
  {
    var start := Moment(today + DaysUntilSaturday(Weekday(today)), 9);
    (start, Moment(start.day + 1, 18))
  }

  // The mock providers; each builds `warning`/`restricted` POIs with a `human` safety warning

  function RestrictedPoi(id: string, at: Point, elevation: int, source: string, severity: string, verified: Instant): Poi
  {
    MockPoi(id, "warning", "restricted", at, elevation, source,
            Properties(Some(ActiveWarning("human", severity)), Some(verified), None))
  }

  /** fetchMilitaryAreas: one extreme-severity zone, present only when the draw exceeds 0.8. */
  function FetchMilitaryAreas(tag: string, now: Instant, at: Point, draw: real): (r: seq<Poi>)
    ensures |r| == (if draw > 0.8 then 1 else 0)
    ensures forall p :: p in r ==> p.source == "official" && p.properties.safetyWarning == Some(ActiveWarning("human", "extreme"))
  {
    if draw > 0.8 then [RestrictedPoi("restricted-military-1-" + tag, at, 250, "official", "extreme", now)] else []
  }

  /** fetchDroneRestrictions: always two zones, a strict one and a conditional one verified 90 days ago. */
  function FetchDroneRestrictions(tag: string, now: Instant, at1: Point, at2: Point): (r: seq<Poi>)
    ensures |r| == 2 && r[0].id != r[1].id
    ensures forall p :: p in r ==> p.source == "official" && HasActiveWarning(p)
  {
    assert ("restricted-drone-1-" + tag)[17] != ("restricted-drone-2-" + tag)[17];
    [ RestrictedPoi("restricted-drone-1-" + tag, at1, 180, "official", "high", now),
      RestrictedPoi("restricted-drone-2-" + tag, at2, 240, "official", "moderate", now - 90 * DayMs) ]
  }

  /** fetchPrivateProperty: one OpenStreetMap-sourced private area, present only when the draw exceeds 0.7. */
  function FetchPrivateProperty(tag: string, now: Instant, at: Point, draw: real): (r: seq<Poi>)
    ensures |r| == (if draw > 0.7 then 1 else 0)
    ensures forall p :: p in r ==> p.source == "osm" && HasActiveWarning(p)
  {
    if draw > 0.7 then [RestrictedPoi("restricted-private-1-" + tag, at, 210, "osm", "moderate", now - 120 * DayMs)] else []
  }

  /** fetchProtectedAreas: one protected habitat, present only when the draw exceeds 0.6. */
  function FetchProtectedAreas(tag: string, now: Instant, at: Point, draw: real): (r: seq<Poi>)
    ensures |r| == (if draw > 0.6 then 1 else 0)
    ensures forall p :: p in r ==> p.source == "official" && HasActiveWarning(p)
  {
    if draw > 0.6 then [RestrictedPoi("restricted-nature-1-" + tag, at, 190, "official", "moderate", now - 45 * DayMs)] else []
  }

  /** fetchTemporaryRestrictions: one weekend closure, present only when the draw exceeds 0.8. */
  function FetchTemporaryRestrictions(tag: string, now: Instant, today: int, at: Point, draw: real): (r: seq<Poi>)
    ensures |r| == (if draw > 0.8 then 1 else 0)
    ensures forall p :: p in r ==>
      && p.temporaryEvent == Some(true) && p.eventStart.Some? && p.eventEnd.Some?
      && Weekday(p.eventStart.value.day) == 6 && p.eventStart.value.hour == 9
      && today <= p.eventStart.value.day <= today + 6
      && p.eventEnd.value == Moment(p.eventStart.value.day + 1, 18)
  {
    if draw > 0.8 then
      var w := EventWindow(today);
      [RestrictedPoi("restricted-temporary-1-" + tag, at, 230, "official", "moderate", now - 7 * DayMs)
         .(temporaryEvent := Some(true), eventStart := Some(w.0), eventEnd := Some(w.1))]
    else []
  }
}
