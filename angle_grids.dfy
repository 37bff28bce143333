/**
 * `createL1cTileTiePointGrids`: the four angle rasters of one granule (sun
 * zenith, sun azimuth, viewing zenith, viewing azimuth), built from the sun
 * angles grid and the per-detector viewing incidence angles grids of the
 * granule's metadata.
 *
 * Float samples are represented by a three-way value (finite, NaN,
 * infinite); the rasters are row-major with sample (y, x) at y * width + x.
 */
module AngleGrids {
  import opened Wrappers
  import opened Geometry

  /** A float sample: a finite value, NaN, or an infinity. */
  datatype Angle = Finite(value: real) | NaN | Infinite(positive: bool)

  /** `S2Metadata.AnglesGrid`: rows of zenith and azimuth samples. */
  datatype AnglesGrid = AnglesGrid(zenith: seq<seq<Angle>>, azimuth: seq<seq<Angle>>)

  /**
   * `S2Metadata.Tile`, as far as angles go: the sun angles grid (possibly
   * null) and the viewing incidence angles grids (the array and each of its
   * elements possibly null).
   */
  datatype TileAngles = TileAngles(sun: Option<AnglesGrid>, viewing: Option<seq<Option<AnglesGrid>>>)

  /** The four tie-point grids, in the order of their tie-point grid index. */
  datatype TiePointGrids = TiePointGrids(
    width: nat, height: nat,
    sunZenith: seq<Angle>, sunAzimuth: seq<Angle>,
    viewZenith: seq<Angle>, viewAzimuth: seq<Angle>)

  /**
   * Result of `createL1cTileTiePointGrids`: the grids, null (no sun angles
   * grid), or a runtime exception that escapes it (null tile, empty or
   * ragged sun grid, null viewing array).
   */
  datatype GridsOutcome = Grids(grids: TiePointGrids) | NoSunGrid | AngleFault

  /** Which of the four rasters. */
  datatype Layer = SunZenith | SunAzimuth | ViewZenith | ViewAzimuth

  /** Sample (y, x) of a ragged grid, NaN where the grid has none. */
  function At(g: seq<seq<Angle>>, y: nat, x: nat): (a: Angle)
    ensures y < |g| && x < |g[y]| ==> a == g[y][x]
    ensures !(y < |g| && x < |g[y]|) ==> a.NaN?
  {
    if y < |g| && x < |g[y]| then g[y][x] else NaN
  }

  /**
   * The zenith test of the viewing loop: the grid is not null, (y, x) is
   * inside its zenith rows and the zenith there is neither NaN nor infinite.
   */
  predicate ZenithUsable(grid: Option<AnglesGrid>, y: nat, x: nat)
  {
    && grid.Some?
    && y < |grid.value.zenith| && x < |grid.value.zenith[y]|
    && grid.value.zenith[y][x].Finite?
  }

  /**
   * The azimuth test of the viewing loop: the grid is not null, (y, x) is
   * inside its azimuth rows, the azimuth is not NaN and the ZENITH there is
   * not infinite. An out-of-range zenith throws, and the exception is caught,
   * so the sample is not written either.
   */
  predicate AzimuthUsable(grid: Option<AnglesGrid>, y: nat, x: nat)
  {
    && grid.Some?
    && y < |grid.value.azimuth| && x < |grid.value.azimuth[y]|
    && !grid.value.azimuth[y][x].NaN?
    && y < |grid.value.zenith| && x < |grid.value.zenith[y]|
    && !grid.value.zenith[y][x].Infinite?
  }

  /** Viewing zenith at (y, x) after scanning `views` in order from `init`. */
  function ViewZenithFrom(init: Angle, views: seq<Option<AnglesGrid>>, y: nat, x: nat): Angle
    decreases |views|
  {
    if views == [] then init
    else
      var last := views[|views| - 1];
      if ZenithUsable(last, y, x) then last.value.zenith[y][x]
      else ViewZenithFrom(init, views[..|views| - 1], y, x)
  }

  /** Viewing azimuth at (y, x) after scanning `views` in order from `init`. */
  function ViewAzimuthFrom(init: Angle, views: seq<Option<AnglesGrid>>, y: nat, x: nat): Angle
    decreases |views|
  {
    if views == [] then init
    else
      var last := views[|views| - 1];
      if AzimuthUsable(last, y, x) then last.value.azimuth[y][x]
      else ViewAzimuthFrom(init, views[..|views| - 1], y, x)
  }

  /** Sample (y, x) of one raster; viewing samples start as NaN. */
  function Sample(sun: AnglesGrid, views: seq<Option<AnglesGrid>>, layer: Layer, y: nat, x: nat): Angle
  {
    match layer
    case SunZenith => At(sun.zenith, y, x)
    case SunAzimuth => At(sun.azimuth, y, x)
    case ViewZenith => ViewZenithFrom(NaN, views, y, x)
    case ViewAzimuth => ViewAzimuthFrom(NaN, views, y, x)
  }

  /** Row y of a raster of width w. */
  function Row(sun: AnglesGrid, views: seq<Option<AnglesGrid>>, layer: Layer, y: nat, w: nat): (r: seq<Angle>)
    ensures |r| == w
    ensures forall x :: 0 <= x < w ==> r[x] == Sample(sun, views, layer, y, x)
  {
    seq(w, x requires 0 <= x < w => Sample(sun, views, layer, y, x))
  }

  /** The first h rows of a row-major raster of width w. */
  function Raster(sun: AnglesGrid, views: seq<Option<AnglesGrid>>, layer: Layer, w: nat, h: nat): seq<Angle>
  {
    if h == 0 then [] else Raster(sun, views, layer, w, h - 1) + Row(sun, views, layer, h - 1, w)
  }

  /** A raster of width w and height h holds w * h samples. */
  lemma {:induction false} RasterLength(sun: AnglesGrid, views: seq<Option<AnglesGrid>>, layer: Layer, w: nat, h: nat)
    ensures |Raster(sun, views, layer, w, h)| == w * h
  {
    if h > 0 {
      RasterLength(sun, views, layer, w, h - 1);
      assert w * (h - 1) + w == w * h;
    }
  }

  /** Adding a row keeps the samples before it. */
  lemma RasterPrefix(sun: AnglesGrid, views: seq<Option<AnglesGrid>>, layer: Layer, w: nat, h: nat, i: nat)
    requires h > 0 && i < |Raster(sun, views, layer, w, h - 1)|
    ensures Raster(sun, views, layer, w, h)[i] == Raster(sun, views, layer, w, h - 1)[i]
  {
  }

  /** The last row of a raster of height h holds the samples of row h - 1. */
  lemma RasterLastRow(sun: AnglesGrid, views: seq<Option<AnglesGrid>>, layer: Layer, w: nat, h: nat, x: nat)
    requires h > 0 && x < w
    ensures (h - 1) * w + x < |Raster(sun, views, layer, w, h)|
    ensures Raster(sun, views, layer, w, h)[(h - 1) * w + x] == Sample(sun, views, layer, h - 1, x)
  {
    RasterLength(sun, views, layer, w, h - 1);
    assert (h - 1) * w == w * (h - 1);
  }

  /** Sample (y, x) sits at index y * w + x. */
  lemma {:induction false} RasterEntry(sun: AnglesGrid, views: seq<Option<AnglesGrid>>, layer: Layer, w: nat, h: nat, y: nat, x: nat)
    requires y < h && x < w
    ensures y * w + x < |Raster(sun, views, layer, w, h)|
    ensures Raster(sun, views, layer, w, h)[y * w + x] == Sample(sun, views, layer, y, x)
  {
    if y < h - 1 {
      RasterLength(sun, views, layer, w, h - 1);
      MajorIndexBound(y, x, h - 1, w);
      RasterEntry(sun, views, layer, w, h - 1, y, x);
      RasterPrefix(sun, views, layer, w, h, y * w + x);
    } else {
      RasterLastRow(sun, views, layer, w, h, x);
    }
  }

  /**
   * The sun rows visited by the copy loop exist: with w > 0, rows 0 .. h - 1
   * of both the zenith and the azimuth grid hold at least w samples.
   */
  predicate SunCovers(sun: AnglesGrid, w: nat, h: nat)
  {
    && |sun.zenith| >= h && |sun.azimuth| >= h
    && forall y :: 0 <= y < h ==> |sun.zenith[y]| >= w && |sun.azimuth[y]| >= w
  }

  /**
   * `createL1cTileTiePointGrids` for the granule whose metadata tile is
   * `tile` (None when the metadata has no such tile).
   */
  function TileGrids(tile: Option<TileAngles>): GridsOutcome
  {
    if tile.None? then AngleFault
    else if tile.value.sun.None? then NoSunGrid
    else
      var sun := tile.value.sun.value;
      if |sun.zenith| == 0 then AngleFault
      else
        var h := |sun.zenith|;
        var w := |sun.zenith[0]|;
        if w > 0 && (!SunCovers(sun, w, h) || tile.value.viewing.None?) then AngleFault
        else
          var views := tile.value.viewing.GetOr([]);
          Grids(TiePointGrids(w, h,
                              Raster(sun, views, SunZenith, w, h), Raster(sun, views, SunAzimuth, w, h),
                              Raster(sun, views, ViewZenith, w, h), Raster(sun, views, ViewAzimuth, w, h)))
  }

  /**
   * The viewing zenith at (y, x) is the one of the LAST detector grid whose
   * zenith test passes there.
   */
  lemma {:induction false} ViewZenithLastWins(init: Angle, views: seq<Option<AnglesGrid>>, y: nat, x: nat, j: nat)
    requires j < |views| && ZenithUsable(views[j], y, x)
    requires forall k :: j < k < |views| ==> !ZenithUsable(views[k], y, x)
    ensures ViewZenithFrom(init, views, y, x) == views[j].value.zenith[y][x]
  {
    if j < |views| - 1 {
      var prefix := views[..|views| - 1];
      assert forall k :: j < k < |prefix| ==> prefix[k] == views[k];
      ViewZenithLastWins(init, prefix, y, x, j);
    }
  }

  /** With no grid passing the zenith test at (y, x), the initial value stays. */
  lemma {:induction false} ViewZenithNoneUsable(init: Angle, views: seq<Option<AnglesGrid>>, y: nat, x: nat)
    requires forall k :: 0 <= k < |views| ==> !ZenithUsable(views[k], y, x)
    ensures ViewZenithFrom(init, views, y, x) == init
  {
    if views != [] {
      var prefix := views[..|views| - 1];
      assert forall k :: 0 <= k < |prefix| ==> prefix[k] == views[k];
      ViewZenithNoneUsable(init, prefix, y, x);
    }
  }

  /**
   * A viewing zenith sample is NaN exactly when no detector grid has a finite
   * in-range zenith there, and it is never infinite.
   */
  lemma ViewZenithNaNIffNoneUsable(views: seq<Option<AnglesGrid>>, y: nat, x: nat)
    ensures ViewZenithFrom(NaN, views, y, x).NaN? <==> forall k :: 0 <= k < |views| ==> !ZenithUsable(views[k], y, x)
    ensures !ViewZenithFrom(NaN, views, y, x).Infinite?
  {
    if forall k :: 0 <= k < |views| ==> !ZenithUsable(views[k], y, x) {
      ViewZenithNoneUsable(NaN, views, y, x);
    } else {
      var j := LastUsable(views, y, x, true);
      ViewZenithLastWins(NaN, views, y, x, j);
    }
  }

  /** The index of the last grid passing the zenith test (or the azimuth test) at (y, x). */
  function LastUsable(views: seq<Option<AnglesGrid>>, y: nat, x: nat, zenith: bool): (j: nat)
    requires exists k :: 0 <= k < |views| && (if zenith then ZenithUsable(views[k], y, x) else AzimuthUsable(views[k], y, x))
    ensures j < |views|
    ensures if zenith then ZenithUsable(views[j], y, x) else AzimuthUsable(views[j], y, x)
    ensures forall k :: j < k < |views| ==> !(if zenith then ZenithUsable(views[k], y, x) else AzimuthUsable(views[k], y, x))
    decreases |views|
  {
    var last := |views| - 1;
    if (if zenith then ZenithUsable(views[last], y, x) else AzimuthUsable(views[last], y, x)) then last
    else
      var prefix := views[..last];
      assert forall k :: 0 <= k < |prefix| ==> prefix[k] == views[k];
      LastUsable(prefix, y, x, zenith)
  }

  /**
   * The viewing azimuth at (y, x) is the one of the LAST detector grid whose
   * azimuth test passes there.
   */
  lemma {:induction false} ViewAzimuthLastWins(init: Angle, views: seq<Option<AnglesGrid>>, y: nat, x: nat, j: nat)
    requires j < |views| && AzimuthUsable(views[j], y, x)
    requires forall k :: j < k < |views| ==> !AzimuthUsable(views[k], y, x)
    ensures ViewAzimuthFrom(init, views, y, x) == views[j].value.azimuth[y][x]
  {
    if j < |views| - 1 {
      var prefix := views[..|views| - 1];
      assert forall k :: j < k < |prefix| ==> prefix[k] == views[k];
      ViewAzimuthLastWins(init, prefix, y, x, j);
    }
  }

  /** With no grid passing the azimuth test at (y, x), the initial value stays. */
  lemma {:induction false} ViewAzimuthNoneUsable(init: Angle, views: seq<Option<AnglesGrid>>, y: nat, x: nat)
    requires forall k :: 0 <= k < |views| ==> !AzimuthUsable(views[k], y, x)
    ensures ViewAzimuthFrom(init, views, y, x) == init
  {
    if views != [] {
      var prefix := views[..|views| - 1];
      assert forall k :: 0 <= k < |prefix| ==> prefix[k] == views[k];
      ViewAzimuthNoneUsable(init, prefix, y, x);
    }
  }

  /** A viewing azimuth sample is NaN exactly when no detector grid passes the azimuth test there. */
  lemma ViewAzimuthNaNIffNoneUsable(views: seq<Option<AnglesGrid>>, y: nat, x: nat)
    ensures ViewAzimuthFrom(NaN, views, y, x).NaN? <==> forall k :: 0 <= k < |views| ==> !AzimuthUsable(views[k], y, x)
  {
    if forall k :: 0 <= k < |views| ==> !AzimuthUsable(views[k], y, x) {
      ViewAzimuthNoneUsable(NaN, views, y, x);
    } else {
      var j := LastUsable(views, y, x, false);
      ViewAzimuthLastWins(NaN, views, y, x, j);
    }
  }

  /**
   * The azimuth test looks at the zenith for infinity: an infinite azimuth of
   * the last grid is kept when its zenith is finite, and a finite azimuth is
   * dropped when its zenith is infinite.
   */
  lemma AzimuthTestChecksZenith(views: seq<Option<AnglesGrid>>, y: nat, x: nat, zenith: Angle, azimuth: Angle)
    ensures var g := AnglesGrid(seq(y + 1, _ => seq(x + 1, _ => zenith)), seq(y + 1, _ => seq(x + 1, _ => azimuth)));
            && (azimuth.Infinite? && zenith.Finite? ==> ViewAzimuthFrom(NaN, views + [Some(g)], y, x) == azimuth)
            && (zenith.Infinite? ==> ViewAzimuthFrom(NaN, views + [Some(g)], y, x) == ViewAzimuthFrom(NaN, views, y, x))
  {
    var g := AnglesGrid(seq(y + 1, _ => seq(x + 1, _ => zenith)), seq(y + 1, _ => seq(x + 1, _ => azimuth)));
    assert (views + [Some(g)])[..|views|] == views;
  }

  /**
   * The grids of a granule: four w * h rasters in which sample (y, x), at
   * index y * w + x, is the sun zenith and azimuth copied from the sun grid
   * and the merged viewing zenith and azimuth.
   */
  lemma TileGridsSample(tile: Option<TileAngles>, y: nat, x: nat)
    requires TileGrids(tile).Grids?
    requires y < TileGrids(tile).grids.height && x < TileGrids(tile).grids.width
    ensures tile.Some? && tile.value.sun.Some?
    ensures var sun := tile.value.sun.value;
            var views := tile.value.viewing.GetOr([]);
            var g := TileGrids(tile).grids;
            var i := y * g.width + x;
            && g.height == |sun.zenith| && g.width == |sun.zenith[0]|
            && |g.sunZenith| == |g.sunAzimuth| == |g.viewZenith| == |g.viewAzimuth| == g.width * g.height
            && i < g.width * g.height
            && y < |sun.azimuth| && x < |sun.zenith[y]| && x < |sun.azimuth[y]|
            && g.sunZenith[i] == sun.zenith[y][x]
            && g.sunAzimuth[i] == sun.azimuth[y][x]
            && g.viewZenith[i] == ViewZenithFrom(NaN, views, y, x)
            && g.viewAzimuth[i] == ViewAzimuthFrom(NaN, views, y, x)
  {
    var sun := tile.value.sun.value;
    var views := tile.value.viewing.GetOr([]);
    var w, h := |sun.zenith[0]|, |sun.zenith|;
    RasterLength(sun, views, SunZenith, w, h);
    RasterLength(sun, views, SunAzimuth, w, h);
    RasterLength(sun, views, ViewZenith, w, h);
    RasterLength(sun, views, ViewAzimuth, w, h);
    RasterEntry(sun, views, SunZenith, w, h, y, x);
    RasterEntry(sun, views, SunAzimuth, w, h, y, x);
    RasterEntry(sun, views, ViewZenith, w, h, y, x);
    RasterEntry(sun, views, ViewAzimuth, w, h, y, x);
  }

  /**
   * `createL1cTileTiePointGrids` returns null exactly when the tile has no
   * sun angles grid, and grids whose size is the sun grid's.
   */
  lemma TileGridsOutcomes(tile: Option<TileAngles>)
    ensures TileGrids(tile).NoSunGrid? <==> tile.Some? && tile.value.sun.None?
    ensures TileGrids(tile).Grids? ==>
              && tile.Some? && tile.value.sun.Some?
              && |tile.value.sun.value.zenith| > 0
              && TileGrids(tile).grids.height == |tile.value.sun.value.zenith|
              && TileGrids(tile).grids.width == |tile.value.sun.value.zenith[0]|
    ensures TileGrids(tile).AngleFault? <==>
              || tile.None?
              || (tile.value.sun.Some? && |tile.value.sun.value.zenith| == 0)
              || (tile.value.sun.Some? && |tile.value.sun.value.zenith| > 0 && |tile.value.sun.value.zenith[0]| > 0
                  && (!SunCovers(tile.value.sun.value, |tile.value.sun.value.zenith[0]|, |tile.value.sun.value.zenith|)
                      || tile.value.viewing.None?))
  {
  }

  /** The scan of the detector grids at one sample, from the current raster values. */
  method MergeViewingAt(views: seq<Option<AnglesGrid>>, y: nat, x: nat, zenith0: Angle, azimuth0: Angle)
    returns (zenith: Angle, azimuth: Angle)
    ensures zenith == ViewZenithFrom(zenith0, views, y, x)
    ensures azimuth == ViewAzimuthFrom(azimuth0, views, y, x)
  {
    zenith, azimuth := zenith0, azimuth0;
    var g := 0;
    while g < |views|
      invariant 0 <= g <= |views|
      invariant zenith == ViewZenithFrom(zenith0, views[..g], y, x)
      invariant azimuth == ViewAzimuthFrom(azimuth0, views[..g], y, x)
    {
      assert views[..g + 1][..g] == views[..g];
      var grid := views[g];
      if grid.Some? {
        if y < |grid.value.zenith| && x < |grid.value.zenith[y]| {
          if grid.value.zenith[y][x].Finite? {
            zenith := grid.value.zenith[y][x];
          }
        }
        if y < |grid.value.azimuth| && x < |grid.value.azimuth[y]| {
          if !grid.value.azimuth[y][x].NaN? {
            if y < |grid.value.zenith| && x < |grid.value.zenith[y]| {
              if !grid.value.zenith[y][x].Infinite? {
                azimuth := grid.value.azimuth[y][x];
              }
            }
            // otherwise the zenith access throws and the handler skips the grid
          }
        }
      }
      // a null grid throws on getZenith() and the handler skips it
      g := g + 1;
    }
    assert views[..|views|] == views;
  }

  /**
   * One pass of the inner loop at (y, x): copies the two sun samples and
   * merges the viewing samples at index y * w + x. Returns false when an
   * access throws (a short sun row, or a null viewing array).
   */
  method FillSample(sun: AnglesGrid, viewing: Option<seq<Option<AnglesGrid>>>, y: nat, x: nat, gridWidth: nat,
                    ghost sz0: seq<Angle>, ghost sa0: seq<Angle>, ghost vz0: seq<Angle>, ghost va0: seq<Angle>,
                    sunZeniths: array<Angle>, sunAzimuths: array<Angle>,
                    viewingZeniths: array<Angle>, viewingAzimuths: array<Angle>)
    returns (ok: bool)
    requires y < |sun.zenith| && x < gridWidth
    requires sunZeniths != sunAzimuths && sunZeniths != viewingZeniths && sunZeniths != viewingAzimuths
    requires sunAzimuths != viewingZeniths && sunAzimuths != viewingAzimuths && viewingZeniths != viewingAzimuths
    requires var n := sunZeniths.Length;
             sunAzimuths.Length == n && viewingZeniths.Length == n && viewingAzimuths.Length == n
             && gridWidth * y + gridWidth <= n
    requires var start, views := gridWidth * y, viewing.GetOr([]);
             && sunZeniths[..start + x] == sz0 + Row(sun, views, SunZenith, y, gridWidth)[..x]
             && sunAzimuths[..start + x] == sa0 + Row(sun, views, SunAzimuth, y, gridWidth)[..x]
             && viewingZeniths[..start + x] == vz0 + Row(sun, views, ViewZenith, y, gridWidth)[..x]
             && viewingAzimuths[..start + x] == va0 + Row(sun, views, ViewAzimuth, y, gridWidth)[..x]
    requires forall i :: gridWidth * y + x <= i < viewingZeniths.Length ==> viewingZeniths[i].NaN? && viewingAzimuths[i].NaN?
    modifies sunZeniths, sunAzimuths, viewingZeniths, viewingAzimuths
    ensures ok <==> x < |sun.zenith[y]| && y < |sun.azimuth| && x < |sun.azimuth[y]| && viewing.Some?
    ensures ok ==>
      var start, views := gridWidth * y, viewing.GetOr([]);
      && sunZeniths[..start + x + 1] == sz0 + Row(sun, views, SunZenith, y, gridWidth)[..x + 1]
      && sunAzimuths[..start + x + 1] == sa0 + Row(sun, views, SunAzimuth, y, gridWidth)[..x + 1]
      && viewingZeniths[..start + x + 1] == vz0 + Row(sun, views, ViewZenith, y, gridWidth)[..x + 1]
      && viewingAzimuths[..start + x + 1] == va0 + Row(sun, views, ViewAzimuth, y, gridWidth)[..x + 1]
      && forall i :: start + x + 1 <= i < viewingZeniths.Length ==> viewingZeniths[i].NaN? && viewingAzimuths[i].NaN?
  {
    ghost var views := viewing.GetOr([]);
    var index := y * gridWidth + x;
    if x >= |sun.zenith[y]| {
      return false;  // ragged sun zenith row
    }
    sunZeniths[index] := sun.zenith[y][x];
    if y >= |sun.azimuth| || x >= |sun.azimuth[y]| {
      return false;  // sun azimuth grid smaller than the zenith grid
    }
    sunAzimuths[index] := sun.azimuth[y][x];
    if viewing.None? {
      return false;  // iterating over a null array
    }
    var zenith, azimuth := MergeViewingAt(viewing.value, y, x, viewingZeniths[index], viewingAzimuths[index]);
    viewingZeniths[index] := zenith;
    viewingAzimuths[index] := azimuth;
    assert sunZeniths[..index + 1] == sunZeniths[..index] + [sunZeniths[index]];
    assert sunAzimuths[..index + 1] == sunAzimuths[..index] + [sunAzimuths[index]];
    assert viewingZeniths[..index + 1] == viewingZeniths[..index] + [viewingZeniths[index]];
    assert viewingAzimuths[..index + 1] == viewingAzimuths[..index] + [viewingAzimuths[index]];
    return true;
  }

  /**
   * The inner loop of `createL1cTileTiePointGrids` over row y: copies the sun
   * samples and merges the viewing samples of the row into the rasters.
   * Returns false when an access throws (a short sun row, or a null viewing
   * array), in which case the exception leaves the method.
   */
  method FillRow(sun: AnglesGrid, viewing: Option<seq<Option<AnglesGrid>>>, y: nat, gridWidth: nat,
                 sunZeniths: array<Angle>, sunAzimuths: array<Angle>,
                 viewingZeniths: array<Angle>, viewingAzimuths: array<Angle>)
    returns (ok: bool)
    requires y < |sun.zenith|
    requires sunZeniths != sunAzimuths && sunZeniths != viewingZeniths && sunZeniths != viewingAzimuths
    requires sunAzimuths != viewingZeniths && sunAzimuths != viewingAzimuths && viewingZeniths != viewingAzimuths
    requires var n := sunZeniths.Length;
             sunAzimuths.Length == n && viewingZeniths.Length == n && viewingAzimuths.Length == n
             && gridWidth * y + gridWidth <= n
    requires forall i :: gridWidth * y <= i < viewingZeniths.Length ==> viewingZeniths[i].NaN? && viewingAzimuths[i].NaN?
    modifies sunZeniths, sunAzimuths, viewingZeniths, viewingAzimuths
    ensures ok <==> gridWidth == 0 || (|sun.zenith[y]| >= gridWidth && |sun.azimuth| > y
                                       && |sun.azimuth[y]| >= gridWidth && viewing.Some?)
    ensures ok ==>
      var views := viewing.GetOr([]);
      var end := gridWidth * y + gridWidth;
      && sunZeniths[..end] == old(sunZeniths[..gridWidth * y]) + Row(sun, views, SunZenith, y, gridWidth)
      && sunAzimuths[..end] == old(sunAzimuths[..gridWidth * y]) + Row(sun, views, SunAzimuth, y, gridWidth)
      && viewingZeniths[..end] == old(viewingZeniths[..gridWidth * y]) + Row(sun, views, ViewZenith, y, gridWidth)
      && viewingAzimuths[..end] == old(viewingAzimuths[..gridWidth * y]) + Row(sun, views, ViewAzimuth, y, gridWidth)
      && forall i :: end <= i < viewingZeniths.Length ==> viewingZeniths[i].NaN? && viewingAzimuths[i].NaN?
  {
    ghost var views := viewing.GetOr([]);
    ghost var start := gridWidth * y;
    ghost var sz0, sa0, vz0, va0 := sunZeniths[..start], sunAzimuths[..start], viewingZeniths[..start], viewingAzimuths[..start];
    var x := 0;
    while x < gridWidth
      invariant 0 <= x <= gridWidth
      invariant x > 0 ==> |sun.azimuth| > y && |sun.zenith[y]| >= x && |sun.azimuth[y]| >= x && viewing.Some?
      invariant sunZeniths[..start + x] == sz0 + Row(sun, views, SunZenith, y, gridWidth)[..x]
      invariant sunAzimuths[..start + x] == sa0 + Row(sun, views, SunAzimuth, y, gridWidth)[..x]
      invariant viewingZeniths[..start + x] == vz0 + Row(sun, views, ViewZenith, y, gridWidth)[..x]
      invariant viewingAzimuths[..start + x] == va0 + Row(sun, views, ViewAzimuth, y, gridWidth)[..x]
      invariant forall i :: start + x <= i < viewingZeniths.Length ==> viewingZeniths[i].NaN? && viewingAzimuths[i].NaN?
    {
      var sampleOk := FillSample(sun, viewing, y, x, gridWidth, sz0, sa0, vz0, va0,
                                 sunZeniths, sunAzimuths, viewingZeniths, viewingAzimuths);
      if !sampleOk {
        return false;
      }
      x := x + 1;
    }
    assert Row(sun, views, SunZenith, y, gridWidth)[..x] == Row(sun, views, SunZenith, y, gridWidth);
    assert Row(sun, views, SunAzimuth, y, gridWidth)[..x] == Row(sun, views, SunAzimuth, y, gridWidth);
    assert Row(sun, views, ViewZenith, y, gridWidth)[..x] == Row(sun, views, ViewZenith, y, gridWidth);
    assert Row(sun, views, ViewAzimuth, y, gridWidth)[..x] == Row(sun, views, ViewAzimuth, y, gridWidth);
    return true;
  }

  /** The sun rows covered so far grow by one row when row y holds w samples in both grids. */
  lemma SunCoversStep(sun: AnglesGrid, w: nat, y: nat)
    requires SunCovers(sun, w, y) && |sun.zenith| > y && |sun.azimuth| > y
    ensures SunCovers(sun, w, y + 1) <==> |sun.zenith[y]| >= w && |sun.azimuth[y]| >= w
  {
  }

  /** Row y of a raster of height h ends within it, where row y + 1 starts. */
  lemma RowEndBound(w: nat, y: nat, h: nat)
    requires y < h
    ensures w * y + w <= w * h && w * y + w == w * (y + 1)
  {
    MulMono(y + 1, h, w);
    assert (y + 1) * w == w * y + w;
  }

  /** A row whose accesses throw leaves the sun grid short of the raster, or the viewing array null. */
  lemma RowFaultBreaksCover(sun: AnglesGrid, viewing: Option<seq<Option<AnglesGrid>>>, w: nat, y: nat)
    requires y < |sun.zenith|
    requires !(w == 0 || (|sun.zenith[y]| >= w && |sun.azimuth| > y && |sun.azimuth[y]| >= w && viewing.Some?))
    ensures !(SunCovers(sun, w, |sun.zenith|) && viewing.Some?)
  {
    if SunCovers(sun, w, |sun.zenith|) {
      assert |sun.zenith[y]| >= w && |sun.azimuth[y]| >= w;
    }
  }

  /**
   * The row loop of `createL1cTileTiePointGrids`: fills the four rasters row
   * by row. Returns false when an access throws, which happens exactly when
   * the rows are not empty and either some sun row is short or the viewing
   * array is null.
   */
  method FillRows(sun: AnglesGrid, viewing: Option<seq<Option<AnglesGrid>>>, gridWidth: nat, gridHeight: nat,
                  sunZeniths: array<Angle>, sunAzimuths: array<Angle>,
                  viewingZeniths: array<Angle>, viewingAzimuths: array<Angle>)
    returns (ok: bool)
    requires gridHeight == |sun.zenith|
    requires sunZeniths != sunAzimuths && sunZeniths != viewingZeniths && sunZeniths != viewingAzimuths
    requires sunAzimuths != viewingZeniths && sunAzimuths != viewingAzimuths && viewingZeniths != viewingAzimuths
    requires var n := sunZeniths.Length;
             n == gridWidth * gridHeight
             && sunAzimuths.Length == n && viewingZeniths.Length == n && viewingAzimuths.Length == n
    requires forall i :: 0 <= i < viewingZeniths.Length ==> viewingZeniths[i].NaN? && viewingAzimuths[i].NaN?
    modifies sunZeniths, sunAzimuths, viewingZeniths, viewingAzimuths
    ensures ok <==> gridWidth == 0 || (SunCovers(sun, gridWidth, gridHeight) && (gridHeight > 0 ==> viewing.Some?))
    ensures ok ==>
      var views := viewing.GetOr([]);
      && sunZeniths[..] == Raster(sun, views, SunZenith, gridWidth, gridHeight)
      && sunAzimuths[..] == Raster(sun, views, SunAzimuth, gridWidth, gridHeight)
      && viewingZeniths[..] == Raster(sun, views, ViewZenith, gridWidth, gridHeight)
      && viewingAzimuths[..] == Raster(sun, views, ViewAzimuth, gridWidth, gridHeight)
  {
    ghost var views := viewing.GetOr([]);
    var y := 0;
    while y < gridHeight
      invariant 0 <= y <= gridHeight
      invariant gridWidth > 0 ==> SunCovers(sun, gridWidth, y) && (y > 0 ==> viewing.Some?)
      invariant gridWidth * y <= sunZeniths.Length
      invariant sunZeniths[..gridWidth * y] == Raster(sun, views, SunZenith, gridWidth, y)
      invariant sunAzimuths[..gridWidth * y] == Raster(sun, views, SunAzimuth, gridWidth, y)
      invariant viewingZeniths[..gridWidth * y] == Raster(sun, views, ViewZenith, gridWidth, y)
      invariant viewingAzimuths[..gridWidth * y] == Raster(sun, views, ViewAzimuth, gridWidth, y)
      invariant forall i :: gridWidth * y <= i < viewingZeniths.Length ==> viewingZeniths[i].NaN? && viewingAzimuths[i].NaN?
    {
      RowEndBound(gridWidth, y, gridHeight);
      var rowOk := FillRow(sun, viewing, y, gridWidth, sunZeniths, sunAzimuths, viewingZeniths, viewingAzimuths);
      if !rowOk {
        RowFaultBreaksCover(sun, viewing, gridWidth, y);
        return false;
      }
      if gridWidth > 0 {
        SunCoversStep(sun, gridWidth, y);
      }
      y := y + 1;
    }
    assert gridWidth * y == sunZeniths.Length;
    assert sunZeniths[..] == sunZeniths[..gridWidth * y];
    assert sunAzimuths[..] == sunAzimuths[..gridWidth * y];
    assert viewingZeniths[..] == viewingZeniths[..gridWidth * y];
    assert viewingAzimuths[..] == viewingAzimuths[..gridWidth * y];
    return true;
  }

  /** `createL1cTileTiePointGrids`. */
  method CreateTileTiePointGrids(tile: Option<TileAngles>) returns (r: GridsOutcome)
    ensures r == TileGrids(tile)
  {
    if tile.None? {
      return AngleFault;  // getSunAnglesGrid() on a null tile
    }
    if tile.value.sun.None? {
      return NoSunGrid;
    }
    var sun := tile.value.sun.value;
    if |sun.zenith| == 0 {
      return AngleFault;  // getZenith()[0] on an empty grid
    }
    var gridHeight := |sun.zenith|;
    var gridWidth := |sun.zenith[0]|;
    var n := gridWidth * gridHeight;
    var sunZeniths := new Angle[n](_ => Finite(0.0));
    var sunAzimuths := new Angle[n](_ => Finite(0.0));
    var viewingZeniths := new Angle[n](_ => NaN);
    var viewingAzimuths := new Angle[n](_ => NaN);
    var ok := FillRows(sun, tile.value.viewing, gridWidth, gridHeight, sunZeniths, sunAzimuths, viewingZeniths, viewingAzimuths);
    if !ok {
      return AngleFault;
    }
    r := Grids(TiePointGrids(gridWidth, gridHeight,
                             sunZeniths[..], sunAzimuths[..], viewingZeniths[..], viewingAzimuths[..]));
  }
}
