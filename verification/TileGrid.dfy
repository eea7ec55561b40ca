/** Tile enumeration of one zoom level: the meaning of a sweep cursor's index. */
module TileGrid {

  datatype Range = Range(xMin: int, xMax: int, yMin: int, yMax: int)

  datatype Tile = Tile(z: nat, x: int, y: int)

  function Pow2(k: nat): (p: nat)
    ensures p >= 1
  {
    if k == 0 then 1 else 2 * Pow2(k - 1)
  }

  function Max(a: int, b: int): int { if a < b then b else a }

  function Min(a: int, b: int): int { if a < b then a else b }

  predicate InWorld(t: Tile) {
    0 <= t.x < Pow2(t.z) && 0 <= t.y < Pow2(t.z)
  }

  predicate InRange(r: Range, t: Tile) {
    r.xMin <= t.x <= r.xMax && r.yMin <= t.y <= r.yMax
  }

  /** The raw range comes from the float projection; only the clamping is modelled. */
  function Clamp(zoom: nat, raw: Range): Range {
    var maxTile := Pow2(zoom) - 1;
    Range(Max(0, raw.xMin), Min(maxTile, raw.xMax), Max(0, raw.yMin), Min(maxTile, raw.yMax))
  }

  function Height(r: Range): nat { if r.yMax < r.yMin then 0 else r.yMax - r.yMin + 1 }

  function Width(r: Range): nat { if r.xMax < r.xMin then 0 else r.xMax - r.xMin + 1 }

  function CountTiles(r: Range): nat {
    if r.xMax < r.xMin || r.yMax < r.yMin then 0
    else (r.xMax - r.xMin + 1) * (r.yMax - r.yMin + 1)
  }

  /** The tile a cursor index denotes: columns first, rows within a column. */
  function TileAt(zoom: nat, r: Range, i: nat): Tile {
    var h := if Height(r) == 0 then 1 else Height(r);
    Tile(zoom, r.xMin + i / h, r.yMin + i % h)
  }

  /** Its inverse on the tiles of the range. */
  function IndexOf(r: Range, t: Tile): int {
    (t.x - r.xMin) * Height(r) + (t.y - r.yMin)
  }

  lemma DivModSplit(i: nat, h: nat)
    requires h > 0
    ensures i == (i / h) * h + i % h && 0 <= i % h < h && 0 <= i / h
  {}

  lemma DivModJoin(q: nat, h: nat, m: nat)
    requires m < h
    ensures (q * h + m) / h == q && (q * h + m) % h == m
  {
    var n := q * h + m;
    DivModSplit(n, h);
    var d := n / h - q;
    assert d * h == m - n % h by {
      assert (n / h) * h - q * h == (n / h - q) * h;
    }
    assert d >= 1 ==> d * h >= h;
    assert d <= -1 ==> d * h + h <= 0;
  }

  lemma QuotientBelow(i: nat, h: nat, w: nat)
    requires h > 0 && i < w * h
    ensures i / h < w
  {
    DivModSplit(i, h);
    var q := i / h;
    assert q >= w ==> q * h >= w * h;
  }

  /** Below the count, an index denotes a tile of the range and is recovered from it. */
  lemma TileAtInRange(zoom: nat, r: Range, i: nat)
    requires i < CountTiles(r)
    ensures InRange(r, TileAt(zoom, r, i))
    ensures IndexOf(r, TileAt(zoom, r, i)) == i
  {
    var h := Height(r);
    DivModSplit(i, h);
    QuotientBelow(i, h, Width(r));
  }

  /** Every tile of the range has exactly one index below the count. */
  lemma IndexOfInCount(r: Range, t: Tile)
    requires InRange(r, t)
    ensures 0 <= IndexOf(r, t) < CountTiles(r)
    ensures TileAt(t.z, r, IndexOf(r, t)) == t
  {
    var h, q, m := Height(r), t.x - r.xMin, t.y - r.yMin;
    assert 0 <= q * h && q * h + h == (q + 1) * h;
    assert (q + 1) * h <= Width(r) * h;
    DivModJoin(q, h, m);
  }

  /** Distinct cursors denote distinct tiles, across zooms as well as within one. */
  lemma TileAtInjective(z: nat, r: Range, i: nat, z': nat, r': Range, j: nat)
    requires i < CountTiles(r) && j < CountTiles(r')
    requires z == z' ==> r == r'
    requires TileAt(z, r, i) == TileAt(z', r', j)
    ensures z == z' && i == j
  {
    TileAtInRange(z, r, i);
    TileAtInRange(z', r', j);
  }

  /** Clamping keeps exactly the tiles of the raw range that exist at this zoom. */
  lemma ClampKeepsWorldTiles(zoom: nat, raw: Range, t: Tile)
    requires t.z == zoom
    ensures InRange(Clamp(zoom, raw), t) <==> InRange(raw, t) && InWorld(t)
  {}

  /** Column by column, each from its smallest row. */
  predicate ColumnOrder(a: Tile, b: Tile) { a.x < b.x || (a.x == b.x && a.y < b.y) }

  /** Indices follow the order in which the nested ranges visit tiles. */
  lemma IndexFollowsOrder(zoom: nat, r: Range, i: nat, j: nat)
    requires i < j < CountTiles(r)
    ensures ColumnOrder(TileAt(zoom, r, i), TileAt(zoom, r, j))
  {
    TileAtInRange(zoom, r, i);
    TileAtInRange(zoom, r, j);
    var a, b, h := TileAt(zoom, r, i), TileAt(zoom, r, j), Height(r);
    if a.x > b.x { LaterColumn(b.x - r.xMin, a.x - r.xMin, h); }
  }

  lemma LaterColumn(q: nat, q': nat, h: nat)
    requires q < q'
    ensures q * h + h <= q' * h
  {
    var d := q' - q - 1;
    assert q' * h == q * h + h + d * h;
  }

  /** The nested-range generator yields exactly the tiles that the indices denote, in index order. */
  method IterTiles(zoom: nat, raw: Range) returns (tiles: seq<Tile>)
    ensures |tiles| == CountTiles(Clamp(zoom, raw))
    ensures forall i :: 0 <= i < |tiles| ==> tiles[i] == TileAt(zoom, Clamp(zoom, raw), i)
    ensures forall t: Tile :: t in tiles <==> t.z == zoom && InRange(raw, t) && InWorld(t)
    ensures forall i, j :: 0 <= i < j < |tiles| ==> ColumnOrder(tiles[i], tiles[j])
    ensures forall i, j :: 0 <= i < j < |tiles| ==> tiles[i] != tiles[j]
  {
    var r := Clamp(zoom, raw);
    tiles := [];
    var x := r.xMin;
    ghost var h := Height(r);
    while x <= r.xMax
      invariant r.xMin <= x && (x <= r.xMax + 1 || x == r.xMin)
      invariant |tiles| == (x - r.xMin) * h
      invariant forall i :: 0 <= i < |tiles| ==> tiles[i] == TileAt(zoom, r, i)
    {
      var y := r.yMin;
      while y <= r.yMax
        invariant r.yMin <= y && (y <= r.yMax + 1 || y == r.yMin)
        invariant |tiles| == (x - r.xMin) * h + (y - r.yMin)
        invariant forall i :: 0 <= i < |tiles| ==> tiles[i] == TileAt(zoom, r, i)
      {
        DivModJoin(x - r.xMin, h, y - r.yMin);
        tiles := tiles + [Tile(zoom, x, y)];
        y := y + 1;
      }
      assert (x + 1 - r.xMin) * h == (x - r.xMin) * h + h;
      x := x + 1;
    }
    assert |tiles| == CountTiles(r) by {
      if r.yMax >= r.yMin && r.xMax >= r.xMin {
        assert x - r.xMin == r.xMax - r.xMin + 1;
      } else if r.xMax >= r.xMin {
        assert h == 0;
      }
    }
    forall t: Tile ensures t in tiles <==> t.z == zoom && InRange(raw, t) && InWorld(t) {
      if t in tiles {
        var i :| 0 <= i < |tiles| && tiles[i] == t;
        TileAtInRange(zoom, r, i);
      }
      if t.z == zoom && InRange(raw, t) && InWorld(t) {
        IndexOfInCount(r, t);
        assert tiles[IndexOf(r, t)] == t;
      }
    }
    forall i, j | 0 <= i < j < |tiles| ensures ColumnOrder(tiles[i], tiles[j]) {
      IndexFollowsOrder(zoom, r, i, j);
    }
  }
}
