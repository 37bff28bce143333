/**
 * Integer rectangle and tile-layout arithmetic of the scene assembly: the
 * level-0 rectangle of an internal JPEG 2000 sub-tile, the layout handed to the
 * decoder for edge sub-tiles, and the decimation ("J2K") rule by which a
 * pyramid level L shrinks a dimension to ceil(dim / 2^L), as in Annex B.5 of
 * ISO/IEC 15444-1.
 */
module Geometry {

  /** `java.awt.Rectangle`. */
  datatype Rect = Rect(x: int, y: int, width: int, height: int)

  /** `java.awt.Dimension`. */
  datatype Dimension = Dimension(width: int, height: int)

  /**
   * `org.esa.s2tbx.dataio.jp2.TileLayout`: level-0 image size of one granule
   * file, nominal internal tile size, tile grid counts and number of levels.
   */
  datatype TileLayout = TileLayout(
    width: int, height: int,
    tileWidth: int, tileHeight: int,
    numXTiles: nat, numYTiles: nat,
    numResolutions: int)

  /**
   * The layout invariant a JPEG 2000 header gives: the tile grid covers the
   * image and no column or row of tiles lies wholly outside it.
   */
  predicate WellFormedLayout(l: TileLayout)
  {
    && l.tileWidth > 0 && l.tileHeight > 0
    && (l.numXTiles - 1) * l.tileWidth < l.width <= l.numXTiles * l.tileWidth
    && (l.numYTiles - 1) * l.tileHeight < l.height <= l.numYTiles * l.tileHeight
  }

  function Pow2(n: nat): (p: nat)
    ensures p >= 1
  {
    if n == 0 then 1 else 2 * Pow2(n - 1)
  }

  lemma MulMono(a: int, b: int, d: int)
    requires a <= b && d >= 0
    ensures a * d <= b * d
  {
    assert b * d - a * d == (b - a) * d;
  }

  /** Position i * size + j of an n-by-size row-major enumeration lies before n * size. */
  lemma MajorIndexBound(i: nat, j: nat, n: nat, size: nat)
    requires i < n && j < size
    ensures i * size + j < n * size
  {
    MulMono(i + 1, n, size);
  }

  /** Integer ceiling of a / d for a positive divisor. */
  function CeilDiv(a: int, d: int): (q: int)
    requires d > 0
    ensures a <= q * d < a + d
  {
    var f := (-a) / d;
    assert -a == f * d + (-a) % d;
    -f
  }

  /** The ceiling is the only q with (q - 1)·d < a <= q·d. */
  lemma CeilDivUnique(a: int, d: int, q: int)
    requires d > 0 && a <= q * d < a + d
    ensures CeilDiv(a, d) == q
  {
    var c := CeilDiv(a, d);
    if c < q {
      MulMono(c + 1, q, d);
    } else if c > q {
      MulMono(q + 1, c, d);
    }
  }

  /**
   * Halving level by level agrees with the direct rule: the level-(L+1)
   * dimension is the ceiling of half the level-L dimension.
   */
  lemma {:induction false} CeilDivPyramid(w: int, level: nat)
    ensures CeilDiv(CeilDiv(w, Pow2(level)), 2) == CeilDiv(w, Pow2(level + 1))
  {
    var d := Pow2(level);
    var q := CeilDiv(w, d);
    var h := CeilDiv(q, 2);
    assert Pow2(level + 1) == 2 * d;
    // (h - 1)·2 < q <= h·2, hence (h - 1)·2d <= (q - 1)·d < w <= q·d <= h·2d
    MulMono(q, 2 * h, d);
    MulMono(2 * (h - 1), q - 1, d);
    assert (2 * h) * d == h * (2 * d);
    assert (2 * (h - 1)) * d == (h - 1) * (2 * d);
    CeilDivUnique(w, 2 * d, h);
  }

  /**
   * The assumption made about the level-bounds function of the multi-level
   * model (`DefaultMultiLevelSource.getLevelImageBounds` at scale 2^level),
   * whose code is not part of this model: a rectangle at the origin keeps the
   * origin and has each side divided by 2^level, rounded up.
   */
  ghost predicate FollowsJ2kRule(levelBounds: (Rect, nat) -> Rect)
  {
    forall r: Rect, level: nat :: r.x == 0 && r.y == 0 ==>
      levelBounds(r, level) == Rect(0, 0, CeilDiv(r.width, Pow2(level)), CeilDiv(r.height, Pow2(level)))
  }

  /** One level-bounds function with floor at the origin and ceiling at the far corner. */
  function CeilLevelBounds(r: Rect, level: nat): (s: Rect)
    ensures s.x * Pow2(level) <= r.x && r.x + r.width <= (s.x + s.width) * Pow2(level)
    ensures s.y * Pow2(level) <= r.y && r.y + r.height <= (s.y + s.height) * Pow2(level)
  {
    var d := Pow2(level);
    var x0 := r.x / d;
    var y0 := r.y / d;
    Rect(x0, y0, CeilDiv(r.x + r.width, d) - x0, CeilDiv(r.y + r.height, d) - y0)
  }

  /** The J2K assumption can be met: `CeilLevelBounds` satisfies it. */
  lemma CeilLevelBoundsFollowsJ2kRule()
    ensures FollowsJ2kRule(CeilLevelBounds)
  {
    forall r: Rect, level: nat | r.x == 0 && r.y == 0
      ensures CeilLevelBounds(r, level) == Rect(0, 0, CeilDiv(r.width, Pow2(level)), CeilDiv(r.height, Pow2(level)))
    {
      assert 0 / Pow2(level) == 0;
    }
  }

  /**
   * Level-0 rectangle of internal sub-tile (x, y) of a granule placed at
   * `origin` in the scene: offset by whole nominal tiles, nominal size.
   */
  function SubTileRectL0(origin: Rect, layout: TileLayout, x: int, y: int): Rect
  {
    Rect(origin.x + x * layout.tileWidth, origin.y + y * layout.tileHeight,
         layout.tileWidth, layout.tileHeight)
  }

  predicate Disjoint(a: Rect, b: Rect)
  {
    || a.x + a.width <= b.x || b.x + b.width <= a.x
    || a.y + a.height <= b.y || b.y + b.height <= a.y
  }

  predicate Contains(r: Rect, px: int, py: int)
  {
    r.x <= px < r.x + r.width && r.y <= py < r.y + r.height
  }

  /** Distinct sub-tiles of one granule never overlap. */
  lemma SubTilesDisjoint(origin: Rect, layout: TileLayout, x1: int, y1: int, x2: int, y2: int)
    requires layout.tileWidth > 0 && layout.tileHeight > 0
    requires x1 != x2 || y1 != y2
    ensures Disjoint(SubTileRectL0(origin, layout, x1, y1), SubTileRectL0(origin, layout, x2, y2))
  {
    var tw, th := layout.tileWidth, layout.tileHeight;
    if x1 < x2 {
      MulMono(x1 + 1, x2, tw);
    } else if x2 < x1 {
      MulMono(x2 + 1, x1, tw);
    } else if y1 < y2 {
      MulMono(y1 + 1, y2, th);
    } else {
      MulMono(y2 + 1, y1, th);
    }
  }

  /**
   * The sub-tile grid covers the granule: every level-0 pixel of the granule
   * lies in the sub-tile given by dividing its offset by the tile size.
   */
  lemma SubTilesCoverGranule(origin: Rect, layout: TileLayout, px: int, py: int)
    requires WellFormedLayout(layout)
    requires 0 <= px < layout.width && 0 <= py < layout.height
    ensures px / layout.tileWidth < layout.numXTiles && py / layout.tileHeight < layout.numYTiles
    ensures Contains(SubTileRectL0(origin, layout, px / layout.tileWidth, py / layout.tileHeight),
                     origin.x + px, origin.y + py)
  {
    var tw, th := layout.tileWidth, layout.tileHeight;
    var cx, cy := px / tw, py / th;
    assert px == cx * tw + px % tw;
    assert py == cy * th + py % th;
    if cx >= layout.numXTiles {
      MulMono(layout.numXTiles, cx, tw);
    }
    if cy >= layout.numYTiles {
      MulMono(layout.numYTiles, cy, th);
    }
  }

  /** Sub-tile (x, y) is on the last column or the last row of its granule. */
  predicate IsEdgeSubTile(layout: TileLayout, x: int, y: int)
  {
    y == layout.numYTiles - 1 || x == layout.numXTiles - 1
  }

  /**
   * The layout given to the decoder for sub-tile (x, y): on the last row or
   * column, BOTH tile sizes become what remains of the image from that
   * sub-tile's offset; every other sub-tile gets the nominal layout.
   */
  function DecodeLayout(layout: TileLayout, x: int, y: int): (r: TileLayout)
    ensures r.width == layout.width && r.height == layout.height
    ensures r.numXTiles == layout.numXTiles && r.numYTiles == layout.numYTiles
    ensures r.numResolutions == layout.numResolutions
    ensures IsEdgeSubTile(layout, x, y) ==>
              x * layout.tileWidth + r.tileWidth == layout.width
              && y * layout.tileHeight + r.tileHeight == layout.height
    ensures !IsEdgeSubTile(layout, x, y) ==> r == layout
  {
    if IsEdgeSubTile(layout, x, y) then
      TileLayout(layout.width, layout.height,
                 layout.width - x * layout.tileWidth, layout.height - y * layout.tileHeight,
                 layout.numXTiles, layout.numYTiles, layout.numResolutions)
    else layout
  }

  /** On the last column of a well-formed layout the decoder's tile width is in (0, tileWidth]. */
  lemma LastColumnWidthFits(layout: TileLayout, y: int)
    requires WellFormedLayout(layout) && layout.numXTiles > 0
    ensures 0 < DecodeLayout(layout, layout.numXTiles - 1, y).tileWidth <= layout.tileWidth
  {
  }

  /**
   * On the last row, a sub-tile that is not on the last column is handed a
   * tile width larger than the nominal one (all the remaining image width),
   * because both axes are recomputed together.
   */
  lemma LastRowWidensInnerColumns(layout: TileLayout, x: nat)
    requires WellFormedLayout(layout) && layout.numYTiles > 0
    requires x < layout.numXTiles - 1
    ensures DecodeLayout(layout, x, layout.numYTiles - 1).tileWidth > layout.tileWidth
  {
    MulMono(x + 1, layout.numXTiles - 1, layout.tileWidth);
  }
}
