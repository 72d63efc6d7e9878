/** Slippy-map tile arithmetic over the reals. The Mercator latitude map is a parameter. */
module Tiles {
  import opened Payloads

  const MAX_LAT: real := 85.05112878

  function Pow2(k: nat): (n: nat)
    ensures n >= 1
  {
    if k == 0 then 1 else 2 * Pow2(k - 1)
  }

  function Clamp(v: int, max: nat): nat {
    if v < 0 then 0 else if v > max then max else v
  }

  function Min(a: nat, b: nat): nat {
    if a < b then a else b
  }

  function Max(a: nat, b: nat): nat {
    if a < b then b else a
  }

  /** u times 2^z */
  function Scale(z: nat, u: real): real {
    if z == 0 then u else Scale(z - 1, 2.0 * u)
  }

  /** u divided by 2^z */
  function Unscale(z: nat, u: real): real {
    if z == 0 then u else Unscale(z - 1, u) / 2.0
  }

  /** The cell of a normalised coordinate (0 to 1 across the map) among 2^z cells. */
  function Cell(z: nat, u: real): nat {
    Clamp(Scale(z, u).Floor, Pow2(z) - 1)
  }

  /** A projection of latitudes: the normalised northing of a latitude, and a latitude for a northing. */
  datatype Mercator = Mercator(northing: real -> real, latitude: real -> real)

  /** Northing falls strictly as latitude grows and takes every value in between. */
  ghost predicate ValidMercator(m: Mercator) {
    && (forall a: real, b: real {:trigger m.northing(a), m.northing(b)} ::
          -MAX_LAT <= a < b <= MAX_LAT ==> m.northing(a) > m.northing(b))
    && (forall v: real :: m.northing(MAX_LAT) <= v <= m.northing(-MAX_LAT)
          ==> -MAX_LAT <= m.latitude(v) <= MAX_LAT && m.northing(m.latitude(v)) == v)
  }

  function ClampLat(lat: real): real {
    if lat < -MAX_LAT then -MAX_LAT else if lat > MAX_LAT then MAX_LAT else lat
  }

  function Easting(lng: real): real {
    (lng + 180.0) / 360.0
  }

  function Northing(m: Mercator, lat: real): real {
    m.northing(ClampLat(lat))
  }

  function TileForCoord(m: Mercator, z: nat, pos: Pos): Tile {
    Tile(z, Cell(z, Easting(pos.lng)), Cell(z, Northing(m, pos.lat)))
  }

  // ---------- Nesting ----------

  lemma {:induction false} ScaleDoubles(z: nat, u: real)
    ensures Scale(z + 1, u) == 2.0 * Scale(z, u)
  {
    if z > 0 {
      ScaleDoubles(z - 1, 2.0 * u);
    }
  }

  lemma {:induction false} ScaleUnscale(z: nat, x: real)
    ensures Scale(z, Unscale(z, x)) == x
  {
    if z > 0 {
      ScaleUnscale(z - 1, x);
    }
  }

  lemma {:induction false} ScaleAdds(z: nat, u: real, v: real)
    ensures Scale(z, u + v) == Scale(z, u) + Scale(z, v)
  {
    if z > 0 {
      assert 2.0 * (u + v) == 2.0 * u + 2.0 * v;
      ScaleAdds(z - 1, 2.0 * u, 2.0 * v);
    }
  }

  lemma {:induction false} ScaleOrder(z: nat, u: real, v: real)
    ensures u <= v <==> Scale(z, u) <= Scale(z, v)
  {
    if z > 0 {
      ScaleOrder(z - 1, 2.0 * u, 2.0 * v);
    }
  }

  lemma CellHalves(z: nat, u: real)
    ensures Cell(z + 1, u) / 2 == Cell(z, u)
  {
    ScaleDoubles(z, u);
    var w := Scale(z, u);
    assert 2 * w.Floor <= (2.0 * w).Floor <= 2 * w.Floor + 1;
  }

  lemma DivDiv(a: nat, m: nat)
    requires m >= 1
    ensures (a / 2) / m == a / (2 * m)
  {
    var q := a / (2 * m);
    var r := a % (2 * m);
    assert a == q * (2 * m) + r;
    assert a / 2 == q * m + r / 2 by {
      assert a == 2 * (q * m) + r;
    }
    assert 0 <= r / 2 < m;
    QuotientIs(q * m + r / 2, m, q, r / 2);
  }

  /** Division by a positive number is determined by its remainder. */
  lemma QuotientIs(a: nat, m: nat, q: nat, r: nat)
    requires m >= 1 && a == q * m + r && r < m
    ensures a / m == q
  {
    var gap := a / m - q;
    assert gap * m == r - a % m by {
      assert gap * m == (a / m) * m - q * m;
    }
    MultipleBounds(gap, m);
  }

  lemma MultipleBounds(gap: int, m: int)
    requires m >= 1
    ensures gap >= 1 ==> gap * m >= m
    ensures gap <= -1 ==> gap * m <= -m
  {
    if gap >= 1 {
      assert gap * m == m + (gap - 1) * m;
    } else if gap <= -1 {
      assert gap * m == -m + (gap + 1) * m;
    }
  }

  /** The cell at zoom z is the cell at zoom z+k divided by 2^k, clamping included. */
  lemma {:induction false} CellNests(z: nat, k: nat, u: real)
    ensures Cell(z, u) == Cell(z + k, u) / Pow2(k)
  {
    if k > 0 {
      CellNests(z, k - 1, u);
      CellHalves(z + k - 1, u);
      DivDiv(Cell(z + k, u), Pow2(k - 1));
    }
  }

  /** Two positions that share a tile share every coarser tile. */
  ghost predicate Nested(tileAt: (nat, Pos) -> Tile) {
    forall z: nat, z': nat, p: Pos, q: Pos :: z <= z' && tileAt(z', p) == tileAt(z', q) ==> tileAt(z, p) == tileAt(z, q)
  }

  /** The configuration of a server that uses the given projection. */
  function ServerConfig(m: Mercator, zooms: seq<nat>, enrich: set<string>): Config {
    Config(zooms, enrich, (z: nat, p: Pos) => TileForCoord(m, z, p))
  }

  lemma ServerConfigValid(m: Mercator, zooms: seq<nat>, enrich: set<string>)
    requires Ascending(zooms)
    ensures ValidConfig(ServerConfig(m, zooms, enrich)) && Nested(ServerConfig(m, zooms, enrich).tileAt)
  {
    var tileAt := ServerConfig(m, zooms, enrich).tileAt;
    forall z: nat, z': nat, p: Pos, q: Pos | z <= z' && tileAt(z', p) == tileAt(z', q)
      ensures tileAt(z, p) == tileAt(z, q)
    {
      CellNests(z, z' - z, Easting(p.lng));
      CellNests(z, z' - z, Easting(q.lng));
      CellNests(z, z' - z, Northing(m, p.lat));
      CellNests(z, z' - z, Northing(m, q.lat));
    }
  }

  // ---------- A tile holds its points ----------

  /** Scaling is multiplying by 2^z. */
  lemma {:induction false} ScaleIsTimes(z: nat, u: real)
    ensures Scale(z, u) == u * Pow2(z) as real
  {
    if z > 0 {
      ScaleIsTimes(z - 1, 2.0 * u);
      DoubleFirst(u, Pow2(z - 1) as real);
    }
  }

  lemma DoubleFirst(u: real, n: real)
    ensures (2.0 * u) * n == u * (2.0 * n)
  {
  }

  /** Among n slices, the one that holds the coordinate; beyond the map the first or the last one. */
  predicate Slice(c: nat, at: real, n: nat) {
    && c < n
    && (0.0 <= at < n as real ==> c as real <= at < (c + 1) as real)
    && (at < 0.0 ==> c == 0) && (at >= n as real ==> c == n - 1)
  }

  lemma ClampHolds(at: real, n: nat)
    requires n >= 1
    ensures Slice(Clamp(at.Floor, n - 1), at, n)
  {
    if at >= n as real {
      assert at.Floor >= n;
    }
  }

  /** The same for slices of 360 degrees. */
  predicate DegreeSlice(c: nat, degrees: real, n: nat) {
    && c < n
    && (0.0 <= degrees < 360.0 ==> c as real * 360.0 <= degrees * n as real < (c + 1) as real * 360.0)
    && (degrees < 0.0 ==> c == 0) && (degrees >= 360.0 ==> c == n - 1)
  }

  lemma InDegrees(c: nat, degrees: real, n: nat)
    requires n >= 1 && Slice(c, (degrees / 360.0) * n as real, n)
    ensures DegreeSlice(c, degrees, n)
  {
    var q, m := degrees / 360.0, n as real;
    assert q * 360.0 == degrees;
    Reorder(q, m);
    TimesOrder(0.0, q, m);
    TimesOrder(1.0, q, m);
  }

  lemma Reorder(q: real, m: real)
    ensures (q * m) * 360.0 == (q * 360.0) * m
  {
  }

  lemma TimesOrder(a: real, b: real, n: real)
    requires n > 0.0
    ensures a <= b <==> a * n <= b * n
  {
    if a <= b {
      assert (b - a) * n >= 0.0;
    } else {
      assert (a - b) * n > 0.0;
    }
  }

  lemma CellHolds(z: nat, u: real)
    ensures Slice(Cell(z, u), u * Pow2(z) as real, Pow2(z))
  {
    ClampHolds(Scale(z, u), Pow2(z));
    ScaleIsTimes(z, u);
  }

  /** Columns are the 2^z slices of 360 degrees, counted eastward from the antimeridian; a position beyond it is in the
      outermost one. */
  lemma ColumnHolds(m: Mercator, z: nat, p: Pos)
    ensures DegreeSlice(TileForCoord(m, z, p).x, p.lng + 180.0, Pow2(z))
  {
    CellHolds(z, Easting(p.lng));
    InDegrees(TileForCoord(m, z, p).x, p.lng + 180.0, Pow2(z));
  }

  /** Rows are the 2^z slices of the northing, counted from the north. Latitudes beyond 85.05112878 degrees count as
      that one. */
  lemma RowHolds(m: Mercator, z: nat, p: Pos)
    ensures var lat := if p.lat > 85.05112878 then 85.05112878
                       else if p.lat < -85.05112878 then -85.05112878
                       else p.lat;
            Slice(TileForCoord(m, z, p).y, Scale(z, m.northing(lat)), Pow2(z))
  {
    ClampHolds(Scale(z, Northing(m, p.lat)), Pow2(z));
  }

  /** Further east never means a smaller column, further north never a larger row. */
  lemma EastAndNorth(m: Mercator, z: nat, p: Pos, q: Pos)
    requires ValidMercator(m)
    ensures p.lng <= q.lng ==> TileForCoord(m, z, p).x <= TileForCoord(m, z, q).x
    ensures p.lat <= q.lat ==> TileForCoord(m, z, p).y >= TileForCoord(m, z, q).y
  {
    if p.lng <= q.lng {
      CellMonotone(z, Easting(p.lng), Easting(q.lng));
    }
    if p.lat <= q.lat {
      NorthingFalls(m, p.lat, q.lat);
      CellMonotone(z, Northing(m, q.lat), Northing(m, p.lat));
    }
  }

  // ---------- Tiles covering a bounding box ----------

  /** How far the corners of a box are nudged inward. */
  function Nudge(z: nat): real {
    Unscale(z, 360.0) * 0.000000001
  }

  function TopLeft(z: nat, w: real, n: real): Pos {
    Pos(n - Nudge(z), w + Nudge(z))
  }

  function BottomRight(z: nat, s: real, e: real): Pos {
    Pos(s + Nudge(z), e - Nudge(z))
  }

  predicate Between(v: real, a: real, b: real) {
    a <= v <= b || b <= v <= a
  }

  /** The tile holds some point of the rectangle spanned by two corners, in whatever order they come. */
  ghost predicate Touches(m: Mercator, t: Tile, a: Pos, b: Pos) {
    exists p: Pos :: Between(p.lat, a.lat, b.lat) && Between(p.lng, a.lng, b.lng) && TileForCoord(m, t.z, p) == t
  }

  lemma CellMonotone(z: nat, u: real, v: real)
    requires u <= v
    ensures Cell(z, u) <= Cell(z, v)
  {
    ScaleOrder(z, u, v);
  }

  /** Every cell between two cells is reached between their coordinates. */
  lemma CellReached(z: nat, u: real, v: real, c: nat) returns (w: real)
    requires u <= v && Cell(z, u) <= c <= Cell(z, v)
    ensures u <= w <= v && Cell(z, w) == c
  {
    if c == Cell(z, u) {
      w := u;
    } else {
      w := Unscale(z, c as real);
      ScaleUnscale(z, c as real);
      ScaleOrder(z, u, w);
      ScaleOrder(z, w, v);
    }
  }

  lemma NorthingFalls(m: Mercator, a: real, b: real)
    requires ValidMercator(m) && a <= b
    ensures Northing(m, a) >= Northing(m, b)
  {
    if ClampLat(a) < ClampLat(b) {
      assert m.northing(ClampLat(a)) > m.northing(ClampLat(b));
    }
  }

  /** Every northing between those of two latitudes belongs to a latitude between them. */
  lemma LatitudeReached(m: Mercator, a: real, b: real, v: real) returns (lat: real)
    requires ValidMercator(m) && a <= b && Northing(m, b) <= v <= Northing(m, a)
    ensures a <= lat <= b && Northing(m, lat) == v
  {
    if v == Northing(m, a) {
      lat := a;
    } else if v == Northing(m, b) {
      lat := b;
    } else {
      NorthingFalls(m, -MAX_LAT, ClampLat(a));
      NorthingFalls(m, ClampLat(b), MAX_LAT);
      lat := m.latitude(v);
      assert Northing(m, lat) == v;
      if lat < a { NorthingFalls(m, lat, a); }
      if b < lat { NorthingFalls(m, b, lat); }
    }
  }

  predicate CellBetween(c: nat, a: nat, b: nat) {
    Min(a, b) <= c <= Max(a, b)
  }

  lemma ColumnReached(z: nat, a: real, b: real, c: nat) returns (lng: real)
    requires CellBetween(c, Cell(z, Easting(a)), Cell(z, Easting(b)))
    ensures Between(lng, a, b) && Cell(z, Easting(lng)) == c
  {
    var lo, hi := if a <= b then a else b, if a <= b then b else a;
    CellMonotone(z, Easting(lo), Easting(hi));
    var u := CellReached(z, Easting(lo), Easting(hi), c);
    lng := u * 360.0 - 180.0;
    assert Easting(lng) == u;
  }

  lemma ColumnStays(z: nat, a: real, b: real, lng: real)
    requires Between(lng, a, b)
    ensures CellBetween(Cell(z, Easting(lng)), Cell(z, Easting(a)), Cell(z, Easting(b)))
  {
    var lo, hi := if a <= b then a else b, if a <= b then b else a;
    CellMonotone(z, Easting(lo), Easting(lng));
    CellMonotone(z, Easting(lng), Easting(hi));
  }

  lemma RowReached(m: Mercator, z: nat, a: real, b: real, c: nat) returns (lat: real)
    requires ValidMercator(m)
    requires CellBetween(c, Cell(z, Northing(m, a)), Cell(z, Northing(m, b)))
    ensures Between(lat, a, b) && Cell(z, Northing(m, lat)) == c
  {
    var lo, hi := if a <= b then a else b, if a <= b then b else a;
    NorthingFalls(m, lo, hi);
    CellMonotone(z, Northing(m, hi), Northing(m, lo));
    var v := CellReached(z, Northing(m, hi), Northing(m, lo), c);
    lat := LatitudeReached(m, lo, hi, v);
  }

  lemma RowStays(m: Mercator, z: nat, a: real, b: real, lat: real)
    requires ValidMercator(m) && Between(lat, a, b)
    ensures CellBetween(Cell(z, Northing(m, lat)), Cell(z, Northing(m, a)), Cell(z, Northing(m, b)))
  {
    var lo, hi := if a <= b then a else b, if a <= b then b else a;
    NorthingFalls(m, lo, lat);
    NorthingFalls(m, lat, hi);
    CellMonotone(z, Northing(m, hi), Northing(m, lat));
    CellMonotone(z, Northing(m, lat), Northing(m, lo));
  }

  /** The cells of a box: between those of its corners. */
  predicate InCellRange(t: Tile, a: Tile, b: Tile) {
    t.z == a.z && CellBetween(t.x, a.x, b.x) && CellBetween(t.y, a.y, b.y)
  }

  lemma RangeIsTouched(m: Mercator, z: nat, a: Pos, b: Pos, t: Tile)
    requires ValidMercator(m)
    ensures InCellRange(t, TileForCoord(m, z, a), TileForCoord(m, z, b)) <==> t.z == z && Touches(m, t, a, b)
  {
    if InCellRange(t, TileForCoord(m, z, a), TileForCoord(m, z, b)) {
      var lng := ColumnReached(z, a.lng, b.lng, t.x);
      var lat := RowReached(m, z, a.lat, b.lat, t.y);
      assert TileForCoord(m, t.z, Pos(lat, lng)) == t;
    }
    if t.z == z && Touches(m, t, a, b) {
      var p: Pos :| Between(p.lat, a.lat, b.lat) && Between(p.lng, a.lng, b.lng) && TileForCoord(m, t.z, p) == t;
      ColumnStays(z, a.lng, b.lng, p.lng);
      RowStays(m, z, a.lat, b.lat, p.lat);
    }
  }

  ghost predicate Distinct(ts: seq<Tile>) {
    forall i, j :: 0 <= i < j < |ts| ==> ts[i] != ts[j]
  }

  /** The tiles of a box, row by row: each once, and exactly those that hold a point of the nudged box. */
  method TilesCoveringBbox(m: Mercator, z: nat, w: real, s: real, e: real, n: real) returns (out: seq<Tile>)
    requires ValidMercator(m)
    ensures Distinct(out) && out != []
    ensures forall t :: t in out <==> t.z == z && Touches(m, t, TopLeft(z, w, n), BottomRight(z, s, e))
    ensures forall t ::
      t in out <==> InCellRange(t, TileForCoord(m, z, TopLeft(z, w, n)), TileForCoord(m, z, BottomRight(z, s, e)))
  {
    var tl := TileForCoord(m, z, TopLeft(z, w, n));
    var br := TileForCoord(m, z, BottomRight(z, s, e));
    var xMin, xMax := Min(tl.x, br.x), Max(tl.x, br.x);
    var yMin, yMax := Min(tl.y, br.y), Max(tl.y, br.y);
    out := [];
    for y := yMin to yMax + 1
      invariant Distinct(out)
      invariant forall t :: t in out <==> t.z == z && xMin <= t.x <= xMax && yMin <= t.y < y
    {
      for x := xMin to xMax + 1
        invariant Distinct(out)
        invariant forall t ::
          t in out <==> t.z == z && ((xMin <= t.x <= xMax && yMin <= t.y < y) || (xMin <= t.x < x && t.y == y))
      {
        out := out + [Tile(z, x, y)];
      }
    }
    assert Tile(z, xMin, yMin) in out;
    forall t {
      RangeIsTouched(m, z, TopLeft(z, w, n), BottomRight(z, s, e), t);
    }
  }

  /** The longitude of a tile boundary. */
  function WestEdge(z: nat, column: nat): real {
    Unscale(z, column as real) * 360.0 - 180.0
  }

  lemma {:induction false} UnscaleTimes(z: nat, x: real)
    ensures Unscale(z, 360.0 * x) == 360.0 * Unscale(z, x)
  {
    if z > 0 {
      UnscaleTimes(z - 1, x);
    }
  }

  /** A longitude a fraction `t` of a tile east of a boundary, scaled up. */
  lemma EdgeScaled(z: nat, column: nat, t: real, lng: real)
    requires lng == WestEdge(z, column) + 360.0 * Unscale(z, t)
    ensures Scale(z, Easting(lng)) == column as real + t
  {
    assert Easting(lng) == Unscale(z, column as real) + Unscale(z, t);
    ScaleAdds(z, Unscale(z, column as real), Unscale(z, t));
    ScaleUnscale(z, column as real);
    ScaleUnscale(z, t);
  }

  lemma {:induction false} UnscaleLinear(z: nat, x: real)
    ensures Unscale(z, -x) == -Unscale(z, x)
    ensures Unscale(z, x) * 0.000000001 == Unscale(z, x * 0.000000001)
  {
    if z > 0 {
      UnscaleLinear(z - 1, x);
    }
  }

  lemma NudgeIsFraction(z: nat)
    ensures Nudge(z) == 360.0 * Unscale(z, 0.000000001)
    ensures -Nudge(z) == 360.0 * Unscale(z, -0.000000001)
  {
    UnscaleTimes(z, 1.0);
    UnscaleLinear(z, 1.0);
    UnscaleLinear(z, 0.000000001);
  }

  /** A point of the box that keeps a distance from its edges. */
  predicate Inside(p: Pos, w: real, s: real, e: real, n: real, margin: real) {
    s + margin <= p.lat <= n - margin && w + margin <= p.lng <= e - margin
  }

  /** What the nudge of a billionth of a tile means for a box that is larger than two nudges: every covering tile holds
      a point of the box that far from its edges, and every tile with such a point is covering. */
  lemma TouchesInside(m: Mercator, t: Tile, w: real, s: real, e: real, n: real)
    requires var margin := 360.0 * Unscale(t.z, 0.000000001); w + 2.0 * margin <= e && s + 2.0 * margin <= n
    ensures Touches(m, t, TopLeft(t.z, w, n), BottomRight(t.z, s, e)) <==>
      exists p: Pos :: Inside(p, w, s, e, n, 360.0 * Unscale(t.z, 0.000000001)) && TileForCoord(m, t.z, p) == t
  {
    NudgeIsFraction(t.z);
    var a, b, margin := TopLeft(t.z, w, n), BottomRight(t.z, s, e), 360.0 * Unscale(t.z, 0.000000001);
    if p: Pos :|
      Between(p.lat, a.lat, b.lat) && Between(p.lng, a.lng, b.lng) && TileForCoord(m, t.z, p) == t
    {
      assert Inside(p, w, s, e, n, margin);
    }
    if p: Pos :| Inside(p, w, s, e, n, margin) && TileForCoord(m, t.z, p) == t {
      assert Between(p.lat, a.lat, b.lat) && Between(p.lng, a.lng, b.lng);
    }
  }

  /** A box whose west and east edges are tile boundaries covers just the columns between them. */
  lemma AlignedColumns(m: Mercator, z: nat, a: nat, b: nat, s: real, n: real, x: nat)
    requires a <= b < Pow2(z)
    ensures var tl := TileForCoord(m, z, TopLeft(z, WestEdge(z, a), n));
            var br := TileForCoord(m, z, BottomRight(z, s, WestEdge(z, b + 1)));
            CellBetween(x, tl.x, br.x) <==> a <= x <= b
  {
    NudgeIsFraction(z);
    EdgeScaled(z, a, 0.000000001, WestEdge(z, a) + Nudge(z));
    EdgeScaled(z, b + 1, -0.000000001, WestEdge(z, b + 1) - Nudge(z));
    assert Cell(z, Easting(WestEdge(z, a) + Nudge(z))) == a;
    assert Cell(z, Easting(WestEdge(z, b + 1) - Nudge(z))) == b;
  }

  /** The same for rows, where a nudge is less than a row of the projection. */
  lemma AlignedRows(m: Mercator, z: nat, a: nat, b: nat, w: real, s: real, e: real, n: real, y: nat)
    requires ValidMercator(m) && a <= b < Pow2(z)
    requires -85.05112878 <= s && s + Nudge(z) <= 85.05112878 && -85.05112878 <= n - Nudge(z) && n <= 85.05112878
    requires Scale(z, m.northing(n)) == a as real && Scale(z, m.northing(n - Nudge(z))) < (a + 1) as real
    requires Scale(z, m.northing(s)) == (b + 1) as real && Scale(z, m.northing(s + Nudge(z))) >= b as real
    ensures var tl, br := TileForCoord(m, z, TopLeft(z, w, n)), TileForCoord(m, z, BottomRight(z, s, e));
            CellBetween(y, tl.y, br.y) <==> a <= y <= b
  {
    NudgeIsPositive(z);
    StrictlyNorth(m, z, n - Nudge(z), n);
    StrictlyNorth(m, z, s, s + Nudge(z));
  }

  lemma {:induction false} UnscalePositive(z: nat, x: real)
    requires x > 0.0
    ensures Unscale(z, x) > 0.0
  {
    if z > 0 {
      UnscalePositive(z - 1, x);
    }
  }

  lemma NudgeIsPositive(z: nat)
    ensures Nudge(z) > 0.0
  {
    UnscalePositive(z, 360.0);
  }

  lemma StrictlyNorth(m: Mercator, z: nat, a: real, b: real)
    requires ValidMercator(m) && -MAX_LAT <= a < b <= MAX_LAT
    ensures Scale(z, m.northing(b)) < Scale(z, m.northing(a))
  {
    ScaleOrder(z, m.northing(a), m.northing(b));
  }
}
