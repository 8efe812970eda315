/**
 * The offline tile cache (offlinemanager.ts): tile enumeration for an area and zoom range,
 * batching, the "z/x/y" tile key, the download run against the tile store, and the area registry.
 */
module OfflineTiles {
  import opened Wrappers
  import opened Seqs
  import opened Decimal
  import opened PoiTypes

  datatype Tile = Tile(x: int, y: int, z: int)

  /**
   * The tile-index span of a zoom level: the floor of the Web Mercator projection of the bounds'
   * corners. The projection itself is floating point and is a parameter of the model.
   */
  datatype Span = Span(minX: int, maxX: int, minY: int, maxY: int)

  type Blob = seq<bv8>

  // ---------------------------------------------------------------------------------------------
  // Tile enumeration (getTilesInBounds)

  /** The tiles (z, x, y) for y = lo..hi, in increasing y. */
  function Column(z: int, x: int, lo: int, hi: int): seq<Tile>
    decreases hi - lo
  {
    if lo > hi then [] else Column(z, x, lo, hi - 1) + [Tile(x, hi, z)]
  }

  /** The tiles of one zoom level for x = xlo..xhi, each x contributing its whole column. */
  function Rows(z: int, xlo: int, xhi: int, ylo: int, yhi: int): seq<Tile>
    decreases xhi - xlo
  {
    if xlo > xhi then [] else Rows(z, xlo, xhi - 1, ylo, yhi) + Column(z, xhi, ylo, yhi)
  }

  function ZoomTiles(z: int, sp: Span): seq<Tile>
  {
    Rows(z, sp.minX, sp.maxX, sp.minY, sp.maxY)
  }

  /** What getTilesInBounds returns: zoom levels minZoom..maxZoom in order, each level's tiles in x-then-y order. */
  function TilesInBounds(b: Bounds, minZoom: int, maxZoom: int, span: (Bounds, int) -> Span): seq<Tile>
    decreases maxZoom - minZoom
  {
    if minZoom > maxZoom then [] else TilesInBounds(b, minZoom, maxZoom - 1, span) + ZoomTiles(maxZoom, span(b, maxZoom))
  }

  /** Whether a tile lies in the span of its own zoom level, for a zoom level in the range. */
  predicate Covers(b: Bounds, minZoom: int, maxZoom: int, span: (Bounds, int) -> Span, t: Tile)
  {
    var sp := span(b, t.z);
    minZoom <= t.z <= maxZoom && sp.minX <= t.x <= sp.maxX && sp.minY <= t.y <= sp.maxY
  }

  /** Lexicographic order on (z, x, y). */
  predicate Before(a: Tile, c: Tile)
  {
    a.z < c.z || (a.z == c.z && (a.x < c.x || (a.x == c.x && a.y < c.y)))
  }

  predicate Ordered(s: seq<Tile>)
  {
    forall i, j :: 0 <= i < j < |s| ==> Before(s[i], s[j])
  }

  lemma OrderedConcat(s: seq<Tile>, t: seq<Tile>)
    requires Ordered(s) && Ordered(t)
    requires forall a, c :: a in s && c in t ==> Before(a, c)
    ensures Ordered(s + t)
  {
    var u := s + t;
    forall i, j | 0 <= i < j < |u| ensures Before(u[i], u[j]) {
      if j < |s| {
        assert u[i] == s[i] && u[j] == s[j];
      } else if i >= |s| {
        assert u[i] == t[i - |s|] && u[j] == t[j - |s|];
      } else {
        assert u[i] in s && u[j] in t;
      }
    }
  }

  lemma {:induction false} ColumnFacts(z: int, x: int, lo: int, hi: int)
    ensures forall t :: t in Column(z, x, lo, hi) <==> t.z == z && t.x == x && lo <= t.y <= hi
    ensures Ordered(Column(z, x, lo, hi))
    ensures |Column(z, x, lo, hi)| == if lo <= hi then hi - lo + 1 else 0
    decreases hi - lo
  {
    if lo <= hi {
      ColumnFacts(z, x, lo, hi - 1);
      OrderedConcat(Column(z, x, lo, hi - 1), [Tile(x, hi, z)]);
    }
  }

  lemma RowsFacts(z: int, xlo: int, xhi: int, ylo: int, yhi: int)
    ensures forall t :: t in Rows(z, xlo, xhi, ylo, yhi) <==>
      t.z == z && xlo <= t.x <= xhi && ylo <= t.y <= yhi
    ensures Ordered(Rows(z, xlo, xhi, ylo, yhi))
    ensures |Rows(z, xlo, xhi, ylo, yhi)| ==
      if xlo <= xhi && ylo <= yhi then (xhi - xlo + 1) * (yhi - ylo + 1) else 0
  {
    RowsMembership(z, xlo, xhi, ylo, yhi);
    RowsOrdered(z, xlo, xhi, ylo, yhi);
    RowsCount(z, xlo, xhi, ylo, yhi);
  }

  lemma {:induction false} RowsMembership(z: int, xlo: int, xhi: int, ylo: int, yhi: int)
    ensures forall t :: t in Rows(z, xlo, xhi, ylo, yhi) <==>
      t.z == z && xlo <= t.x <= xhi && ylo <= t.y <= yhi
    decreases xhi - xlo
  {
    if xlo <= xhi {
      RowsMembership(z, xlo, xhi - 1, ylo, yhi);
      ColumnFacts(z, xhi, ylo, yhi);
    }
  }

  lemma {:induction false} RowsOrdered(z: int, xlo: int, xhi: int, ylo: int, yhi: int)
    ensures Ordered(Rows(z, xlo, xhi, ylo, yhi))
    decreases xhi - xlo
  {
    if xlo <= xhi {
      RowsOrdered(z, xlo, xhi - 1, ylo, yhi);
      RowsMembership(z, xlo, xhi - 1, ylo, yhi);
      ColumnFacts(z, xhi, ylo, yhi);
      OrderedConcat(Rows(z, xlo, xhi - 1, ylo, yhi), Column(z, xhi, ylo, yhi));
    }
  }

  lemma {:induction false} RowsCount(z: int, xlo: int, xhi: int, ylo: int, yhi: int)
    ensures |Rows(z, xlo, xhi, ylo, yhi)| ==
      if xlo <= xhi && ylo <= yhi then (xhi - xlo + 1) * (yhi - ylo + 1) else 0
    decreases xhi - xlo
  {
    if xlo <= xhi {
      RowsCount(z, xlo, xhi - 1, ylo, yhi);
      ColumnFacts(z, xhi, ylo, yhi);
      RowsCountStep(xhi - xlo, yhi - ylo + 1, |Rows(z, xlo, xhi - 1, ylo, yhi)|);
    }
  }

  /** The count step of `RowsFacts`: one more column of h tiles after w columns. */
  lemma RowsCountStep(w: int, h: int, n: int)
    requires w >= 0
    requires n == if w > 0 && h > 0 then w * h else 0
    ensures n + (if h > 0 then h else 0) == if h > 0 then (w + 1) * h else 0
  {
    if h > 0 {
      assert (w + 1) * h == w * h + h;
    }
  }

  /** Membership: the enumeration emits exactly the tiles each zoom level's span covers. */
  lemma {:induction false} TilesInBoundsMembership(b: Bounds, minZoom: int, maxZoom: int, span: (Bounds, int) -> Span, t: Tile)
    ensures t in TilesInBounds(b, minZoom, maxZoom, span) <==> Covers(b, minZoom, maxZoom, span, t)
    decreases maxZoom - minZoom
  {
    if minZoom <= maxZoom {
      TilesInBoundsMembership(b, minZoom, maxZoom - 1, span, t);
      var sp := span(b, maxZoom);
      RowsFacts(maxZoom, sp.minX, sp.maxX, sp.minY, sp.maxY);
    }
  }

  /** Order: the tiles come sorted by z, then x, then y, so no tile is emitted twice. */
  lemma {:induction false} TilesInBoundsOrdered(b: Bounds, minZoom: int, maxZoom: int, span: (Bounds, int) -> Span)
    ensures Ordered(TilesInBounds(b, minZoom, maxZoom, span))
    ensures NoDuplicates(TilesInBounds(b, minZoom, maxZoom, span))
    decreases maxZoom - minZoom
  {
    var r := TilesInBounds(b, minZoom, maxZoom, span);
    if minZoom <= maxZoom {
      var p := TilesInBounds(b, minZoom, maxZoom - 1, span);
      var sp := span(b, maxZoom);
      var q := ZoomTiles(maxZoom, sp);
      TilesInBoundsOrdered(b, minZoom, maxZoom - 1, span);
      RowsFacts(maxZoom, sp.minX, sp.maxX, sp.minY, sp.maxY);
      forall a, c | a in p && c in q ensures Before(a, c) {
        TilesInBoundsMembership(b, minZoom, maxZoom - 1, span, a);
      }
      OrderedConcat(p, q);
    }
    forall i, j | 0 <= i < j < |r| ensures r[i] != r[j] {
      assert Before(r[i], r[j]);
    }
  }

  /** The tiles of one zoom level, as a filter predicate. */
  function AtZoom(z: int): Tile -> bool
  {
    (t: Tile) => t.z == z
  }

  /** Per zoom level: the tiles with zoom z are exactly that level's span, in the same order. */
  lemma {:induction false} TilesPerZoom(b: Bounds, minZoom: int, maxZoom: int, span: (Bounds, int) -> Span, z: int)
    requires minZoom <= z <= maxZoom
    ensures Filter(TilesInBounds(b, minZoom, maxZoom, span), AtZoom(z)) == ZoomTiles(z, span(b, z))
    decreases maxZoom - minZoom
  {
    var f := AtZoom(z);
    var p := TilesInBounds(b, minZoom, maxZoom - 1, span);
    var q := ZoomTiles(maxZoom, span(b, maxZoom));
    assert TilesInBounds(b, minZoom, maxZoom, span) == p + q;
    FilterConcat(p, q, f);
    if z == maxZoom {
      ZoomMembership(maxZoom, span(b, maxZoom));
      forall i | 0 <= i < |q| ensures f(q[i]) {
        assert q[i] in q;
      }
      FilterAll(q, f);
      forall t | t in p ensures !f(t) {
        TilesInBoundsMembership(b, minZoom, maxZoom - 1, span, t);
      }
      FilterNone(p, f);
    } else {
      TilesPerZoom(b, minZoom, maxZoom - 1, span, z);
      ZoomMembership(maxZoom, span(b, maxZoom));
      FilterNone(q, f);
    }
  }

  lemma ZoomMembership(z: int, sp: Span)
    ensures forall t :: t in ZoomTiles(z, sp) ==> t.z == z
  {
    RowsFacts(z, sp.minX, sp.maxX, sp.minY, sp.maxY);
  }

  /** A zoom level contributes (maxX - minX + 1) * (maxY - minY + 1) tiles, or none for an empty span. */
  lemma ZoomCount(z: int, sp: Span)
    ensures |ZoomTiles(z, sp)| ==
      if sp.minX <= sp.maxX && sp.minY <= sp.maxY then (sp.maxX - sp.minX + 1) * (sp.maxY - sp.minY + 1) else 0
  {
    RowsFacts(z, sp.minX, sp.maxX, sp.minY, sp.maxY);
  }

  // ---------------------------------------------------------------------------------------------
  // Batching (chunkArray)

  /**
   * chunkArray: consecutive slices of `size` elements, the last one possibly shorter
   * (the source builds slice i as elements i*size up to i*size+size, for i below ceil(n / size)).
   */
  function Chunks<T>(s: seq<T>, size: nat): seq<seq<T>>
    requires size > 0
    decreases |s|
  {
    if |s| == 0 then [] else if |s| <= size then [s] else [s[..size]] + Chunks(s[size..], size)
  }

  /** Concatenating the chunks gives back the input, in order. */
  lemma {:induction false} ChunksFlatten<T>(s: seq<T>, size: nat)
    requires size > 0
    ensures Flatten(Chunks(s, size)) == s
    decreases |s|
  {
    if 0 < |s| <= size {
      assert Flatten([s]) == s + Flatten([s][1..]);
    } else if |s| > size {
      var c := Chunks(s, size);
      ChunksFlatten(s[size..], size);
      assert c[0] == s[..size] && c[1..] == Chunks(s[size..], size);
      assert s == s[..size] + s[size..];
    }
  }

  /** Every chunk but the last holds exactly `size` elements; the last holds 1..size; there are ceil(n / size). */
  lemma {:induction false} ChunkSizes<T>(s: seq<T>, size: nat)
    requires size > 0
    ensures |s| == 0 <==> |Chunks(s, size)| == 0
    ensures |s| > 0 ==> (|Chunks(s, size)| - 1) * size < |s| <= |Chunks(s, size)| * size
    ensures forall i :: 0 <= i < |Chunks(s, size)| - 1 ==> |Chunks(s, size)[i]| == size
    ensures |Chunks(s, size)| > 0 ==> 1 <= |Chunks(s, size)[|Chunks(s, size)| - 1]| <= size
    decreases |s|
  {
    if |s| > size {
      var c, d := Chunks(s, size), Chunks(s[size..], size);
      ChunkSizes(s[size..], size);
      var m := |d|;
      assert |c| == m + 1;
      assert (m + 1) * size == m * size + size;
      assert m * size == (m - 1) * size + size;
      forall i | 0 <= i < m ensures c[i + 1] == d[i] { }
    }
  }

  // ---------------------------------------------------------------------------------------------
  // Tile keys (`${z}/${x}/${y}`)

  /** The storage key of a tile, used both to store and to look up. */
  function TileKey(z: int, x: int, y: int): string
  {
    IntToString(z) + "/" + IntToString(x) + "/" + IntToString(y)
  }

  function KeyOf(t: Tile): string { TileKey(t.z, t.x, t.y) }

  /** `s.split('/')` */
  function Split(s: string): (parts: seq<string>)
    ensures |parts| >= 1
  {
    if s == [] then [""]
    else
      var rest := Split(s[1..]);
      if s[0] == '/' then [""] + rest else [[s[0]] + rest[0]] + rest[1..]
  }

  lemma {:induction false} SplitPlain(a: string)
    requires '/' !in a
    ensures Split(a) == [a]
  {
    if a != [] {
      SplitPlain(a[1..]);
      assert a == [a[0]] + a[1..];
    }
  }

  lemma {:induction false} SplitAt(a: string, t: string)
    requires '/' !in a
    ensures Split(a + "/" + t) == [a] + Split(t)
  {
    if a == [] {
      assert a + "/" + t == "/" + t;
      assert ("/" + t)[1..] == t;
    } else {
      var u := a + "/" + t;
      assert u[0] == a[0] && u[1..] == a[1..] + "/" + t;
      SplitAt(a[1..], t);
      assert a == [a[0]] + a[1..];
    }
  }

  /** Reads a key back into (z, x, y). */
  function ParseTileKey(k: string): Option<Tile>
  {
    var parts := Split(k);
    if |parts| != 3 then None
    else
      match (ParseInt(parts[0]), ParseInt(parts[1]), ParseInt(parts[2]))
      case (Some(z), Some(x), Some(y)) => Some(Tile(x, y, z))
      case _ => None
  }

  /** Parsing a key yields the tile it was built from (for every integer triple, negatives included). */
  lemma TileKeyRoundTrip(z: int, x: int, y: int)
    ensures ParseTileKey(TileKey(z, x, y)) == Some(Tile(x, y, z))
  {
    NoSlash(z); NoSlash(x); NoSlash(y);
    IntRoundTrip(z); IntRoundTrip(x); IntRoundTrip(y);
    SplitThree(IntToString(z), IntToString(x), IntToString(y));
  }

  /** Three slash-free parts joined by slashes split back into those parts. */
  lemma SplitThree(a: string, b: string, c: string)
    requires '/' !in a && '/' !in b && '/' !in c
    ensures Split(a + "/" + b + "/" + c) == [a, b, c]
  {
    SplitPlain(c);
    SplitAt(b, c);
    assert a + "/" + b + "/" + c == a + "/" + (b + "/" + c);
    SplitAt(a, b + "/" + c);
  }

  /** Distinct tiles have distinct keys, so keys within one run never collide. */
  lemma KeyInjective(t: Tile, u: Tile)
    requires KeyOf(t) == KeyOf(u)
    ensures t == u
  {
    TileKeyRoundTrip(t.z, t.x, t.y);
    TileKeyRoundTrip(u.z, u.x, u.y);
  }

  // ---------------------------------------------------------------------------------------------
  // Tile URL (getTileUrl)

  /** `String.fromCharCode(97 + Math.floor(r * 3))` for `r = Math.random()` in [0, 1). */
  function Server(r: real): (c: char)
    requires 0.0 <= r < 1.0
    ensures c == 'a' || c == 'b' || c == 'c'
    ensures c == 'a' <==> r < 1.0 / 3.0
    ensures c == 'c' <==> r >= 2.0 / 3.0
  {
    var k := (r * 3.0).Floor;
    assert 0 <= k <= 2;
    (97 + k) as char
  }

  function TileUrl(z: int, x: int, y: int, r: real): string
    requires 0.0 <= r < 1.0
  {
    "https://" + [Server(r)] + ".tile.openstreetmap.org/" + TileKey(z, x, y) + ".png"
  }

  /** The URL names one of the three subdomains and ends with the tile key path. */
  lemma TileUrlShape(z: int, x: int, y: int, r: real)
    requires 0.0 <= r < 1.0
    ensures var u := TileUrl(z, x, y, r);
      u[..8] == "https://" && u[8] == Server(r)
      && u[9..|u| - 4] == ".tile.openstreetmap.org/" + TileKey(z, x, y)
      && u[|u| - 4..] == ".png"
  {
    UrlParts(Server(r), TileKey(z, x, y));
  }

  lemma UrlParts(c: char, k: string)
    ensures var u := "https://" + [c] + ".tile.openstreetmap.org/" + k + ".png";
      u[..8] == "https://" && u[8] == c && u[9..|u| - 4] == ".tile.openstreetmap.org/" + k && u[|u| - 4..] == ".png"
  {
    var p, m, e := "https://", ".tile.openstreetmap.org/", ".png";
    var u := p + [c] + m + k + e;
    assert u == p + [c] + (m + k) + e;
    assert u[..8] == p;
    assert u[9..|u| - 4] == m + k;
    assert u[|u| - 4..] == e;
  }

  // ---------------------------------------------------------------------------------------------
  // One download run against the tile store, as a function of the store and the tile list

  /** How one attempt at a missing tile ended: a body was read, the response was not ok, or something threw. */
  datatype FetchOutcome = Fetched(body: Blob) | NotOk | FetchThrew

  /**
   * The store after attempting one tile, for a key function: a present key is skipped; a missing one
   * is written only on success. The lemmas below hold for every key function; the manager uses `KeyOf`.
   */
  function Attempt(key: Tile -> string, store: map<string, Blob>, t: Tile, fetch: Tile -> FetchOutcome): map<string, Blob>
  {
    if key(t) in store then store
    else match fetch(t)
      case Fetched(body) => store[key(t) := body]
      case _ => store
  }

  /** A tile attempt as a step of a run over the store. */
  function AttemptStep(key: Tile -> string, fetch: Tile -> FetchOutcome): (map<string, Blob>, Tile) -> map<string, Blob>
  {
    (store: map<string, Blob>, t: Tile) => Attempt(key, store, t, fetch)
  }

  /** The request a tile attempt issues: one exactly when its key is missing from the store. */
  function Missing(key: Tile -> string): (map<string, Blob>, Tile) -> seq<Tile>
  {
    (store: map<string, Blob>, t: Tile) => if key(t) in store then [] else [t]
  }

  /** The store after attempting the tiles of `ts` in order. */
  function StoreAfter(store: map<string, Blob>, ts: seq<Tile>, fetch: Tile -> FetchOutcome): map<string, Blob>
  {
    Run(AttemptStep(KeyOf, fetch), store, ts)
  }

  /** The tiles for which a network request is issued, in order. */
  function Requested(store: map<string, Blob>, ts: seq<Tile>, fetch: Tile -> FetchOutcome): seq<Tile>
  {
    Emitted(AttemptStep(KeyOf, fetch), Missing(KeyOf), store, ts)
  }

  /** A run never overwrites a stored key. */
  lemma {:induction false} RunKeeps(key: Tile -> string, store: map<string, Blob>, ts: seq<Tile>, fetch: Tile -> FetchOutcome, k: string)
    requires k in store
    ensures var after := Run(AttemptStep(key, fetch), store, ts);
      k in after && after[k] == store[k]
  {
    if ts != [] {
      RunKeeps(key, store, ts[..|ts| - 1], fetch, k);
    }
  }

  /** A key a run adds is the key of a listed tile whose fetch succeeded, holding the fetched body. */
  lemma {:induction false} RunAdded(key: Tile -> string, store: map<string, Blob>, ts: seq<Tile>, fetch: Tile -> FetchOutcome, k: string)
    requires k in Run(AttemptStep(key, fetch), store, ts) && k !in store
    ensures exists t :: t in ts && key(t) == k && fetch(t) == Fetched(Run(AttemptStep(key, fetch), store, ts)[k])
  {
    var p, t := ts[..|ts| - 1], ts[|ts| - 1];
    var s := Run(AttemptStep(key, fetch), store, p);
    assert t in ts;
    if k in s {
      RunAdded(key, store, p, fetch, k);
      var u :| u in p && key(u) == k && fetch(u) == Fetched(s[k]);
      assert u in ts;
    } else {
      assert key(t) == k;
    }
  }

  /** Every listed tile whose fetch succeeds ends up stored. */
  lemma {:induction false} RunFetched(key: Tile -> string, store: map<string, Blob>, ts: seq<Tile>, fetch: Tile -> FetchOutcome, t: Tile)
    requires t in ts && fetch(t).Fetched?
    ensures key(t) in Run(AttemptStep(key, fetch), store, ts)
  {
    var p, last := ts[..|ts| - 1], ts[|ts| - 1];
    if t != last {
      assert ts == p + [last];
      RunFetched(key, store, p, fetch, t);
    }
  }

  /** `key` gives distinct listed tiles distinct keys. */
  ghost predicate InjectiveOn(key: Tile -> string, ts: seq<Tile>)
  {
    forall a, b :: a in ts && b in ts && key(a) == key(b) ==> a == b
  }

  /**
   * Requests go only to listed tiles whose key was not in the store when the run started; when the
   * key function separates the listed tiles, every such tile is requested.
   */
  lemma {:induction false} MissingRequested(key: Tile -> string, store: map<string, Blob>, ts: seq<Tile>, fetch: Tile -> FetchOutcome, t: Tile)
    ensures t in Emitted(AttemptStep(key, fetch), Missing(key), store, ts) ==> t in ts && key(t) !in store
    ensures InjectiveOn(key, ts) && t in ts && key(t) !in store ==> t in Emitted(AttemptStep(key, fetch), Missing(key), store, ts)
  {
    if ts != [] {
      var p, last := ts[..|ts| - 1], ts[|ts| - 1];
      assert ts == p + [last];
      assert InjectiveOn(key, ts) ==> InjectiveOn(key, p);
      MissingRequested(key, store, p, fetch, t);
      var before := Run(AttemptStep(key, fetch), store, p);
      if t == last {
        if key(t) in store {
          RunKeeps(key, store, p, fetch, key(t));
        }
        if InjectiveOn(key, ts) && t !in p && key(t) !in store && key(t) in before {
          RunAdded(key, store, p, fetch, key(t));
          var u :| u in p && key(u) == key(t) && fetch(u) == Fetched(before[key(t)]);
          assert u in ts;
        }
      }
    }
  }

  /** When every listed key is already stored, a run issues no request. */
  lemma {:induction false} NoneMissing(key: Tile -> string, store: map<string, Blob>, ts: seq<Tile>, fetch: Tile -> FetchOutcome)
    requires forall t :: t in ts ==> key(t) in store
    ensures Emitted(AttemptStep(key, fetch), Missing(key), store, ts) == []
  {
    if ts != [] {
      var p, t := ts[..|ts| - 1], ts[|ts| - 1];
      assert forall u :: u in p ==> u in ts;
      NoneMissing(key, store, p, fetch);
      assert t in ts;
      RunKeeps(key, store, p, fetch, key(t));
    }
  }

  /**
   * A run never overwrites a stored key, and adds exactly the keys of listed tiles whose fetch
   * succeeded, with the fetched body; every other key is unchanged.
   */
  lemma StoreAfterSpec(store: map<string, Blob>, ts: seq<Tile>, fetch: Tile -> FetchOutcome)
    ensures forall k :: k in store ==> k in StoreAfter(store, ts, fetch) && StoreAfter(store, ts, fetch)[k] == store[k]
    ensures forall k :: k in StoreAfter(store, ts, fetch) && k !in store ==>
      exists t :: t in ts && KeyOf(t) == k && fetch(t) == Fetched(StoreAfter(store, ts, fetch)[k])
    ensures forall t :: t in ts && fetch(t).Fetched? ==> KeyOf(t) in StoreAfter(store, ts, fetch)
  {
    forall k | k in store ensures k in StoreAfter(store, ts, fetch) && StoreAfter(store, ts, fetch)[k] == store[k] {
      RunKeeps(KeyOf, store, ts, fetch, k);
    }
    forall k | k in StoreAfter(store, ts, fetch) && k !in store
      ensures exists t :: t in ts && KeyOf(t) == k && fetch(t) == Fetched(StoreAfter(store, ts, fetch)[k])
    {
      RunAdded(KeyOf, store, ts, fetch, k);
    }
    forall t | t in ts && fetch(t).Fetched? ensures KeyOf(t) in StoreAfter(store, ts, fetch) {
      RunFetched(KeyOf, store, ts, fetch, t);
    }
  }

  /** A run requests exactly the listed tiles whose key was not in the store when the run started. */
  lemma RequestedSpec(store: map<string, Blob>, ts: seq<Tile>, fetch: Tile -> FetchOutcome)
    ensures forall t :: t in Requested(store, ts, fetch) <==> t in ts && KeyOf(t) !in store
  {
    forall a, b | a in ts && b in ts && KeyOf(a) == KeyOf(b) ensures a == b {
      KeyInjective(a, b);
    }
    forall t ensures t in Requested(store, ts, fetch) <==> t in ts && KeyOf(t) !in store {
      MissingRequested(KeyOf, store, ts, fetch, t);
    }
  }

  /** When every listed key is already stored, a run issues no request. */
  lemma RequestedNone(store: map<string, Blob>, ts: seq<Tile>, fetch: Tile -> FetchOutcome)
    requires forall t :: t in ts ==> KeyOf(t) in store
    ensures Requested(store, ts, fetch) == []
  {
    NoneMissing(KeyOf, store, ts, fetch);
  }

  /** A second run over the same tiles, after a first run in which every needed fetch succeeded, requests nothing. */
  lemma RerunRequestsNothing(store: map<string, Blob>, ts: seq<Tile>, fetch: Tile -> FetchOutcome, fetch2: Tile -> FetchOutcome)
    requires forall t :: t in ts && KeyOf(t) !in store ==> fetch(t).Fetched?
    ensures Requested(StoreAfter(store, ts, fetch), ts, fetch2) == []
  {
    StoreAfterSpec(store, ts, fetch);
    RequestedNone(StoreAfter(store, ts, fetch), ts, fetch2);
  }

  /** Running the first ci + 1 batches is running the first ci and then batch ci. */
  lemma BatchStep(store: map<string, Blob>, chunks: seq<seq<Tile>>, ci: int, fetch: Tile -> FetchOutcome)
    requires 0 <= ci < |chunks|
    ensures var done := Flatten(chunks[..ci]);
      && Flatten(chunks[..ci + 1]) == done + chunks[ci]
      && StoreAfter(store, Flatten(chunks[..ci + 1]), fetch) == StoreAfter(StoreAfter(store, done, fetch), chunks[ci], fetch)
      && Requested(store, Flatten(chunks[..ci + 1]), fetch)
         == Requested(store, done, fetch) + Requested(StoreAfter(store, done, fetch), chunks[ci], fetch)
  {
    var chunk := chunks[ci];
    assert chunks[..ci + 1] == chunks[..ci] + [chunk];
    FlattenConcat(chunks[..ci], [chunk]);
    assert Flatten([chunk]) == chunk + Flatten([chunk][1..]);
    RunConcat(AttemptStep(KeyOf, fetch), store, Flatten(chunks[..ci]), chunk);
    EmittedConcat(AttemptStep(KeyOf, fetch), Missing(KeyOf), store, Flatten(chunks[..ci]), chunk);
  }

  // ---------------------------------------------------------------------------------------------
  // The registry and the manager object

  /** An area as the metadata store holds it. */
  datatype AreaRecord = AreaRecord(id: string, name: string, bounds: Bounds, zoom: (int, int), timestamp: int, tileCount: int)

  /** An area object; the download updates `tileCount` in place, so the registry entry sees the change. */
  class Area {
    const id: string
    const name: string
    const bounds: Bounds
    const zoom: (int, int)
    const timestamp: int
    var tileCount: int

    constructor (id: string, name: string, bounds: Bounds, zoom: (int, int), timestamp: int, tileCount: int)
      ensures this.id == id && this.name == name && this.bounds == bounds && this.zoom == zoom
      ensures this.timestamp == timestamp && this.tileCount == tileCount
    {
      this.id, this.name, this.bounds, this.zoom, this.timestamp, this.tileCount := id, name, bounds, zoom, timestamp, tileCount;
    }

    function Record(): AreaRecord
      reads this
    {
      AreaRecord(id, name, bounds, zoom, timestamp, tileCount)
    }
  }

  /** The serialised form of a list of areas, as `setItem` stores it. */
  function Snapshot(areas: seq<Area>): seq<AreaRecord>
    reads set a | a in areas
  {
    if areas == [] then [] else Snapshot(areas[..|areas| - 1]) + [areas[|areas| - 1].Record()]
  }

  lemma SnapshotAppend(areas: seq<Area>, a: Area)
    ensures Snapshot(areas + [a]) == Snapshot(areas) + [a.Record()]
  {
    assert (areas + [a])[..|areas|] == areas;
  }

  class OfflineManager {
    /** The per-zoom tile span of a bounding box (the Web Mercator projection). */
    const span: (Bounds, int) -> Span
    /** The in-memory area list. */
    var offlineAreas: seq<Area>
    /** The tile store, keyed by `z/x/y`. */
    var tileStore: map<string, Blob>
    /** The value held under 'offlineAreas' in the metadata store. */
    var savedAreas: Option<seq<AreaRecord>>

    /**
     * Construction with the persisted state: the areas load from the metadata store when its read
     * succeeds and it holds a list; otherwise the list starts empty.
     */
    constructor (span: (Bounds, int) -> Span, tiles: map<string, Blob>, saved: Option<seq<AreaRecord>>, readOk: bool)
      ensures this.span == span && tileStore == tiles && savedAreas == saved
      ensures Snapshot(offlineAreas) == if readOk && saved.Some? then saved.value else []
      ensures forall a :: a in offlineAreas ==> fresh(a)
    {
      var loaded: seq<Area> := [];
      if readOk && saved.Some? {
        loaded := LoadAreas(saved.value);
      }
      this.span := span;
      tileStore := tiles;
      savedAreas := saved;
      offlineAreas := loaded;
    }

    /** The loaded list: one new area object per stored record, in order. */
    static method LoadAreas(records: seq<AreaRecord>) returns (areas: seq<Area>)
      ensures Snapshot(areas) == records
      ensures forall a :: a in areas ==> fresh(a)
    {
      areas := [];
      var i := 0;
      while i < |records|
        invariant 0 <= i <= |records|
        invariant forall a :: a in areas ==> fresh(a)
        invariant Snapshot(areas) == records[..i]
      {
        var r := records[i];
        var a := new Area(r.id, r.name, r.bounds, r.zoom, r.timestamp, r.tileCount);
        SnapshotAppend(areas, a);
        assert a.Record() == r;
        areas := areas + [a];
        assert records[..i + 1] == records[..i] + [r];
        i := i + 1;
      }
      assert records[..i] == records;
    }

    /** getTilesInBounds: nested loops over z, x, y pushing each tile. */
    method GetTilesInBounds(b: Bounds, minZoom: int, maxZoom: int) returns (tiles: seq<Tile>)
      ensures tiles == TilesInBounds(b, minZoom, maxZoom, span)
    {
      tiles := [];
      var z := minZoom;
      while z <= maxZoom
        invariant z == minZoom || minZoom < z <= maxZoom + 1
        invariant tiles == TilesInBounds(b, minZoom, z - 1, span)
        decreases maxZoom - z
      {
        var sp := span(b, z);
        var level := ZoomLevel(z, sp);
        tiles := tiles + level;
        z := z + 1;
      }
    }

    /** The x and y loops of getTilesInBounds for one zoom level. */
    static method ZoomLevel(z: int, sp: Span) returns (tiles: seq<Tile>)
      ensures tiles == ZoomTiles(z, sp)
    {
      tiles := [];
      var x := sp.minX;
      while x <= sp.maxX
        invariant x == sp.minX || sp.minX < x <= sp.maxX + 1
        invariant tiles == Rows(z, sp.minX, x - 1, sp.minY, sp.maxY)
        decreases sp.maxX - x
      {
        ghost var row := tiles;
        var y := sp.minY;
        while y <= sp.maxY
          invariant y == sp.minY || sp.minY < y <= sp.maxY + 1
          invariant tiles == row + Column(z, x, sp.minY, y - 1)
          decreases sp.maxY - y
        {
          tiles := tiles + [Tile(x, y, z)];
          y := y + 1;
        }
        x := x + 1;
      }
    }

    /** getOfflineTile: the stored body under the tile's key, or null. */
    function GetOfflineTile(z: int, x: int, y: int): (r: Option<Blob>)
      reads this
      ensures r.Some? <==> TileKey(z, x, y) in tileStore
      ensures r.Some? ==> r.value == tileStore[TileKey(z, x, y)]
    {
      if TileKey(z, x, y) in tileStore then Some(tileStore[TileKey(z, x, y)]) else None
    }

    /**
     * The body of one tile's attempt: look the key up, fetch only when missing, store only an ok
     * body. `hit` says whether the key was already there (then no request is made).
     */
    method CacheTile(tile: Tile, fetch: Tile -> FetchOutcome) returns (hit: bool)
      modifies this
      ensures hit == (KeyOf(tile) in old(tileStore))
      ensures tileStore == Attempt(KeyOf, old(tileStore), tile, fetch)
      ensures offlineAreas == old(offlineAreas) && savedAreas == old(savedAreas)
    {
      var key := TileKey(tile.z, tile.x, tile.y);
      hit := key in tileStore;
      if !hit {
        match fetch(tile)
        case Fetched(body) => tileStore := tileStore[key := body];
        case _ =>
      }
    }

    /** The tiles of one batch, one after the other; `attempted` counts each tile once it has been dealt with. */
    method DownloadBatch(chunk: seq<Tile>, fetch: Tile -> FetchOutcome) returns (requested: seq<Tile>, attempted: nat)
      modifies this
      ensures attempted == |chunk|
      ensures tileStore == StoreAfter(old(tileStore), chunk, fetch)
      ensures requested == Requested(old(tileStore), chunk, fetch)
      ensures offlineAreas == old(offlineAreas) && savedAreas == old(savedAreas)
    {
      requested, attempted := [], 0;
      var ti := 0;
      while ti < |chunk|
        invariant 0 <= ti <= |chunk| && attempted == ti
        invariant offlineAreas == old(offlineAreas) && savedAreas == old(savedAreas)
        invariant tileStore == StoreAfter(old(tileStore), chunk[..ti], fetch)
        invariant requested == Requested(old(tileStore), chunk[..ti], fetch)
      {
        var tile := chunk[ti];
        RunSnoc(AttemptStep(KeyOf, fetch), Missing(KeyOf), old(tileStore), chunk, ti);
        var hit := CacheTile(tile, fetch);
        if !hit {
          requested := requested + [tile];
        }
        attempted := attempted + 1;
        ti := ti + 1;
      }
      assert chunk[..ti] == chunk;
    }

    /**
     * The batch loop of downloadTilesForArea: batches run one after the other, each tile checked,
     * fetched only when missing and written only after an ok response. `completed` counts every
     * attempt whatever its ending; `pauses` counts the waits after each batch in foreground mode.
     */
    method DownloadBatches(chunks: seq<seq<Tile>>, background: bool, fetch: Tile -> FetchOutcome)
      returns (completed: nat, requested: seq<Tile>, pauses: nat)
      modifies this
      ensures completed == |Flatten(chunks)|
      ensures tileStore == StoreAfter(old(tileStore), Flatten(chunks), fetch)
      ensures requested == Requested(old(tileStore), Flatten(chunks), fetch)
      ensures pauses == if background then 0 else |chunks|
      ensures offlineAreas == old(offlineAreas) && savedAreas == old(savedAreas)
    {
      ghost var store0 := tileStore;
      completed, requested, pauses := 0, [], 0;
      var ci := 0;
      while ci < |chunks|
        invariant 0 <= ci <= |chunks|
        invariant offlineAreas == old(offlineAreas) && savedAreas == old(savedAreas)
        invariant tileStore == StoreAfter(store0, Flatten(chunks[..ci]), fetch)
        invariant requested == Requested(store0, Flatten(chunks[..ci]), fetch)
        invariant completed == |Flatten(chunks[..ci])|
        invariant pauses == if background then 0 else ci
      {
        BatchStep(store0, chunks, ci, fetch);
        var req, attempted := DownloadBatch(chunks[ci], fetch);
        requested := requested + req;
        completed := completed + attempted;
        if !background {
          pauses := pauses + 1;
        }
        ci := ci + 1;
      }
      assert chunks[..ci] == chunks;
    }

    /**
     * downloadTilesForArea: enumerate the area's tiles, record their number on the area, attach a
     * progress listener unless in background mode, run the batches of 10, and finally write the
     * area list to the metadata store, which may fail.
     */
    method DownloadTilesForArea(area: Area, background: bool, fetch: Tile -> FetchOutcome, metaWriteOk: bool)
      returns (completed: nat, total: nat, requested: seq<Tile>, subscribed: bool, pauses: nat)
      modifies this, area
      ensures offlineAreas == old(offlineAreas)
      ensures var tiles := TilesInBounds(area.bounds, area.zoom.0, area.zoom.1, span);
        && total == |tiles| && completed == total && area.tileCount == total
        && tileStore == StoreAfter(old(tileStore), tiles, fetch)
        && requested == Requested(old(tileStore), tiles, fetch)
        && pauses == (if background then 0 else |Chunks(tiles, 10)|)
      ensures subscribed == !background
      ensures savedAreas == if metaWriteOk then Some(Snapshot(offlineAreas)) else old(savedAreas)
    {
      var tiles := GetTilesInBounds(area.bounds, area.zoom.0, area.zoom.1);
      total := |tiles|;
      area.tileCount := total;
      subscribed := !background;
      var chunks := Chunks(tiles, 10);
      ChunksFlatten(tiles, 10);
      completed, requested, pauses := DownloadBatches(chunks, background, fetch);
      if metaWriteOk {
        savedAreas := Some(Snapshot(offlineAreas));
      }
    }

    /**
     * saveArea: appends a new area (tile count 0) and persists the list. If the write fails the call
     * returns false, the area stays in memory and no download starts; otherwise the download runs
     * (here to completion) and the call returns true.
     */
    method SaveArea(bounds: Bounds, name: string, zoom: (int, int) := (10, 14), now: int, metaWriteOk: bool,
                    fetch: Tile -> FetchOutcome, finalWriteOk: bool)
      returns (ok: bool)
      modifies this
      ensures ok == metaWriteOk
      ensures |offlineAreas| == |old(offlineAreas)| + 1 && offlineAreas[..|old(offlineAreas)|] == old(offlineAreas)
      ensures var a := offlineAreas[|offlineAreas| - 1];
        && fresh(a) && a.id == "area_" + IntToString(now) && a.name == name && a.bounds == bounds
        && a.zoom == zoom && a.timestamp == now
        && a.tileCount == (if ok then |TilesInBounds(bounds, zoom.0, zoom.1, span)| else 0)
      ensures !ok ==> savedAreas == old(savedAreas) && tileStore == old(tileStore)
      ensures ok ==> tileStore == StoreAfter(old(tileStore), TilesInBounds(bounds, zoom.0, zoom.1, span), fetch)
      ensures ok && finalWriteOk ==> savedAreas == Some(Snapshot(offlineAreas))
      ensures ok && !finalWriteOk ==>
        savedAreas == Some(old(Snapshot(offlineAreas)) + [AreaRecord("area_" + IntToString(now), name, bounds, zoom, now, 0)])
    {
      var area := new Area("area_" + IntToString(now), name, bounds, zoom, now, 0);
      SnapshotAppend(offlineAreas, area);
      offlineAreas := offlineAreas + [area];
      if !metaWriteOk {
        return false;
      }
      savedAreas := Some(Snapshot(offlineAreas));
      assert savedAreas == Some(old(Snapshot(offlineAreas)) + [area.Record()]);
      var _, _, _, _, _ := DownloadTilesForArea(area, false, fetch, finalWriteOk);
      return true;
    }

    /**
     * preloadArea: a transient area (not added to the list) whose download runs in background mode:
     * no progress listener and no pause between batches.
     */
    method PreloadArea(bounds: Bounds, zoom: (int, int) := (10, 14), now: int, fetch: Tile -> FetchOutcome, finalWriteOk: bool)
      returns (requested: seq<Tile>, subscribed: bool, pauses: nat)
      modifies this
      ensures offlineAreas == old(offlineAreas)
      ensures forall a :: a in offlineAreas ==> a.tileCount == old(a.tileCount)
      ensures !subscribed && pauses == 0
      ensures var tiles := TilesInBounds(bounds, zoom.0, zoom.1, span);
        tileStore == StoreAfter(old(tileStore), tiles, fetch) && requested == Requested(old(tileStore), tiles, fetch)
      ensures savedAreas == if finalWriteOk then Some(Snapshot(offlineAreas)) else old(savedAreas)
    {
      var area := new Area("preload_" + IntToString(now), "Aktueller Bereich", bounds, zoom, now, 0);
      var _, _, req, sub, p := DownloadTilesForArea(area, true, fetch, finalWriteOk);
      requested, subscribed, pauses := req, sub, p;
    }
  }
}
