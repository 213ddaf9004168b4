/**
 * `generateMapTiles` (app/page.tsx:348-368): the slippy-map tiles drawn
 * around the centre tile — a neighbourhood sized from the 300 x 200 map and
 * 256-pixel tiles, keeping only tiles that exist at the zoom level, listed
 * column by column. The centre tile is an input (its projection from
 * latitude/longitude is not modelled).
 */
module Tiles {
  import opened Arith

  datatype Tile = Tile(x: int, y: int)

  const MapWidth: nat := 300
  const MapHeight: nat := 200
  const TileSize: nat := 256

  /** `Math.ceil(a / b)` on naturals. */
  function CeilDiv(a: nat, b: nat): nat
    requires b > 0
  {
    (a + b - 1) / b
  }

  /** `tilesX` and `tilesY`: tiles needed across and down, plus one. */
  const TilesX: nat := CeilDiv(MapWidth, TileSize) + 1
  const TilesY: nat := CeilDiv(MapHeight, TileSize) + 1

  /** `Math.pow(2, zoom)`: the number of tiles along each axis at a zoom level. */
  function Pow2(n: nat): nat
  {
    if n == 0 then 1 else 2 * Pow2(n - 1)
  }

  /** The tile exists at this zoom level. */
  predicate InWorld(x: int, y: int, zoom: nat)
  {
    x >= 0 && y >= 0 && x < Pow2(zoom) && y < Pow2(zoom)
  }

  /** The existing tiles of column `x` with rows in [ylo, y), top to bottom. */
  function Column(x: int, ylo: int, y: int, zoom: nat): seq<Tile>
    decreases y - ylo
  {
    if y <= ylo then []
    else Column(x, ylo, y - 1, zoom) + (if InWorld(x, y - 1, zoom) then [Tile(x, y - 1)] else [])
  }

  /** The existing tiles of columns [xlo, x), each column [ylo, yhi), left to right. */
  function Grid(xlo: int, x: int, ylo: int, yhi: int, zoom: nat): seq<Tile>
    decreases x - xlo
  {
    if x <= xlo then [] else Grid(xlo, x - 1, ylo, yhi, zoom) + Column(x - 1, ylo, yhi, zoom)
  }

  /** The nested loops of the source, over x then y, pushing the tiles that exist. */
  method GenerateMapTiles(centerX: int, centerY: int, zoom: nat) returns (tiles: seq<Tile>)
    ensures tiles == Grid(centerX - TilesX / 2, centerX + TilesX / 2 + 1,
                          centerY - TilesY / 2, centerY + TilesY / 2 + 1, zoom)
  {
    var xlo, xhi := centerX - TilesX / 2, centerX + TilesX / 2;
    var ylo, yhi := centerY - TilesY / 2, centerY + TilesY / 2;
    tiles := [];
    var x := xlo;
    while x <= xhi
      invariant xlo <= x <= xhi + 1
      invariant tiles == Grid(xlo, x, ylo, yhi + 1, zoom)
    {
      var y := ylo;
      while y <= yhi
        invariant ylo <= y <= yhi + 1
        invariant tiles == Grid(xlo, x, ylo, yhi + 1, zoom) + Column(x, ylo, y, zoom)
      {
        if x >= 0 && y >= 0 && x < Pow2(zoom) && y < Pow2(zoom) {
          tiles := tiles + [Tile(x, y)];
        }
        y := y + 1;
      }
      x := x + 1;
    }
  }

  /** A column holds exactly the existing tiles of its row range. */
  lemma {:induction false} ColumnMembers(x: int, ylo: int, y: int, zoom: nat, t: Tile)
    ensures t in Column(x, ylo, y, zoom) <==> t.x == x && ylo <= t.y < y && InWorld(t.x, t.y, zoom)
    decreases y - ylo
  {
    if y > ylo { ColumnMembers(x, ylo, y - 1, zoom, t); }
  }

  /** A grid holds exactly the existing tiles of its rectangle. */
  lemma {:induction false} GridMembers(xlo: int, x: int, ylo: int, yhi: int, zoom: nat, t: Tile)
    ensures t in Grid(xlo, x, ylo, yhi, zoom)
        <==> xlo <= t.x < x && ylo <= t.y < yhi && InWorld(t.x, t.y, zoom)
    decreases x - xlo
  {
    if x > xlo {
      GridMembers(xlo, x - 1, ylo, yhi, zoom, t);
      ColumnMembers(x - 1, ylo, yhi, zoom, t);
    }
  }

  /** x-major order: by column, then by row. */
  predicate Before(a: Tile, b: Tile)
  {
    a.x < b.x || (a.x == b.x && a.y < b.y)
  }

  predicate Ordered(s: seq<Tile>)
  {
    forall i, j :: 0 <= i < j < |s| ==> Before(s[i], s[j])
  }

  /** Appending a list whose tiles all come after every tile of an ordered list keeps order. */
  lemma ConcatOrdered(a: seq<Tile>, b: seq<Tile>)
    requires Ordered(a) && Ordered(b)
    requires forall i, j :: 0 <= i < |a| && 0 <= j < |b| ==> Before(a[i], b[j])
    ensures Ordered(a + b)
  {
    var c := a + b;
    forall i, j | 0 <= i < j < |c| ensures Before(c[i], c[j]) {
      if j < |a| {
        assert c[i] == a[i] && c[j] == a[j];
      } else if i >= |a| {
        assert c[i] == b[i - |a|] && c[j] == b[j - |a|];
      } else {
        assert c[i] == a[i] && c[j] == b[j - |a|];
      }
    }
  }

  /** A column lists its tiles top to bottom, with no tile twice. */
  lemma {:induction false} ColumnOrdered(x: int, ylo: int, y: int, zoom: nat)
    ensures Ordered(Column(x, ylo, y, zoom))
    decreases y - ylo
  {
    if y > ylo {
      var c := Column(x, ylo, y - 1, zoom);
      ColumnOrdered(x, ylo, y - 1, zoom);
      var last := if InWorld(x, y - 1, zoom) then [Tile(x, y - 1)] else [];
      forall i, j | 0 <= i < |c| && 0 <= j < |last| ensures Before(c[i], last[j]) {
        ColumnMembers(x, ylo, y - 1, zoom, c[i]);
      }
      ConcatOrdered(c, last);
    }
  }

  /** A grid lists its tiles in x-major order, with no tile twice. */
  lemma {:induction false} GridOrdered(xlo: int, x: int, ylo: int, yhi: int, zoom: nat)
    ensures Ordered(Grid(xlo, x, ylo, yhi, zoom))
    decreases x - xlo
  {
    if x > xlo {
      var g := Grid(xlo, x - 1, ylo, yhi, zoom);
      var c := Column(x - 1, ylo, yhi, zoom);
      GridOrdered(xlo, x - 1, ylo, yhi, zoom);
      ColumnOrdered(x - 1, ylo, yhi, zoom);
      forall i, j | 0 <= i < |g| && 0 <= j < |c| ensures Before(g[i], c[j]) {
        GridMembers(xlo, x - 1, ylo, yhi, zoom, g[i]);
        ColumnMembers(x - 1, ylo, yhi, zoom, c[j]);
      }
      ConcatOrdered(g, c);
    }
  }

  /** A column has at most one tile per row, and all of them when every row exists. */
  lemma {:induction false} ColumnSize(x: int, ylo: int, y: int, zoom: nat)
    requires ylo <= y
    ensures |Column(x, ylo, y, zoom)| <= y - ylo
    ensures (forall r :: ylo <= r < y ==> InWorld(x, r, zoom)) ==> |Column(x, ylo, y, zoom)| == y - ylo
    decreases y - ylo
  {
    if y > ylo { ColumnSize(x, ylo, y - 1, zoom); }
  }

  /** A grid has at most one tile per cell of its rectangle, and all of them when every cell exists. */
  lemma {:induction false} GridSize(xlo: int, x: int, ylo: int, yhi: int, zoom: nat)
    requires xlo <= x && ylo <= yhi
    ensures |Grid(xlo, x, ylo, yhi, zoom)| <= (x - xlo) * (yhi - ylo)
    ensures (forall c, r :: xlo <= c < x && ylo <= r < yhi ==> InWorld(c, r, zoom))
            ==> |Grid(xlo, x, ylo, yhi, zoom)| == (x - xlo) * (yhi - ylo)
    decreases x - xlo
  {
    if x > xlo {
      GridSize(xlo, x - 1, ylo, yhi, zoom);
      ColumnSize(x - 1, ylo, yhi, zoom);
      MulSucc(x - 1 - xlo, yhi - ylo);
    }
  }

  /**
   * The tiles drawn: a 3 x 3 neighbourhood of the centre. At most nine,
   * each existing at the zoom level and within one tile of the centre on both
   * axes, every such tile present, in x-major order without repeats; exactly
   * nine when the centre is at least one tile from every edge.
   */
  lemma MapTilesNeighbourhood(centerX: int, centerY: int, zoom: nat)
    ensures TilesX / 2 == 1 && TilesY / 2 == 1
    ensures var g := Grid(centerX - 1, centerX + 2, centerY - 1, centerY + 2, zoom);
      && |g| <= 9
      && (forall t :: t in g <==> (centerX - 1 <= t.x <= centerX + 1 && centerY - 1 <= t.y <= centerY + 1
                                   && InWorld(t.x, t.y, zoom)))
      && Ordered(g)
      && (1 <= centerX && centerX + 1 < Pow2(zoom) && 1 <= centerY && centerY + 1 < Pow2(zoom) ==> |g| == 9)
  {
    var g := Grid(centerX - 1, centerX + 2, centerY - 1, centerY + 2, zoom);
    GridSize(centerX - 1, centerX + 2, centerY - 1, centerY + 2, zoom);
    GridOrdered(centerX - 1, centerX + 2, centerY - 1, centerY + 2, zoom);
    forall t ensures t in g <==> (centerX - 1 <= t.x <= centerX + 1 && centerY - 1 <= t.y <= centerY + 1
                                  && InWorld(t.x, t.y, zoom)) {
      GridMembers(centerX - 1, centerX + 2, centerY - 1, centerY + 2, zoom, t);
    }
  }
}
