/**
 * `BandL1cSceneMultiLevelSource.createImage`: for one band and one pyramid
 * level, the list of positioned source images (one per internal JPEG 2000
 * sub-tile of every granule) that is overlaid into the scene mosaic, and the
 * rectangle the mosaic is cropped to.
 *
 * The decoder (`JP2TileOpImage.create`) and the level-bounds function of the
 * multi-level model are parameters; the JAI operators (translate, constant,
 * mosaic, crop) are represented by the values they are built from.
 */
module SceneMosaic {
  import opened Geometry
  import opened Product
  import opened Wrappers

  /** What `JP2TileOpImage.create` is asked for: file, tile row, tile column, layout, level. */
  datatype DecodeRequest = DecodeRequest(file: FilePath, row: nat, column: nat, layout: TileLayout, level: nat)

  /** Outcome of the decoder: an image, null, or an `IOException`. */
  datatype Decoded<Img> = Decoded(image: Img) | NullImage | DecodeIOError

  /**
   * One entry of the mosaic's source list: a decoded sub-tile translated to
   * its level position, a null entry, or a constant block that stands in for a
   * sub-tile whose decoding failed.
   */
  datatype TileSource<Img> = Translated(image: Img, dx: int, dy: int) | NullSource | ConstantBlock(width: int, height: int, fill: int)

  /**
   * Result of `createImage`: null, the cropped mosaic of the listed sources, or
   * the `NullPointerException` raised for a scene tile that has no file for the band.
   */
  datatype MosaicImage<Src> = NoMosaic | Mosaic(sources: seq<Src>, crop: Rect) | NullPointerFault(tileId: TileId)

  /** The constant written where a sub-tile could not be decoded. */
  const DecodeFailureFill := 0

  /**
   * A band's multi-level source: the scene layout, the band, the decoder and
   * the level-bounds function of its multi-level model.
   */
  datatype BandSource<Img> = BandSource(
    scene: SceneLayout,
    band: BandInfo,
    decode: DecodeRequest -> Decoded<Img>,
    levelBounds: (Rect, nat) -> Rect)
  {
    ghost predicate Valid()
    {
      scene.PlacedAt(band.information.resolution)
    }

    function Resolution(): Resolution { band.information.resolution }
    function Layout(): TileLayout { band.layout }
  }

  /** Level-0 rectangle of granule `id` in the scene, at the band's native resolution. */
  function TileOrigin<Img>(src: BandSource<Img>, id: TileId): Rect
    requires src.Valid() && id in src.scene.tileIds
  {
    src.scene.positions[(id, src.Resolution())]
  }

  /** The crop rectangle: level bounds of the band's native-resolution scene size. */
  function CropBounds<Img>(src: BandSource<Img>, level: nat): Rect
    requires src.Valid()
  {
    var d := src.scene.dimensions[src.Resolution()];
    src.levelBounds(Rect(0, 0, d.width, d.height), level)
  }

  /** Under the J2K rule the crop is at the origin and ceil(dim / 2^level) in each direction. */
  lemma CropIsCeilOfSceneSize<Img>(src: BandSource<Img>, level: nat)
    requires src.Valid() && FollowsJ2kRule(src.levelBounds)
    ensures var d := src.scene.dimensions[src.Resolution()];
            var c := CropBounds(src, level);
            c.x == 0 && c.y == 0
            && d.width <= c.width * Pow2(level) < d.width + Pow2(level)
            && d.height <= c.height * Pow2(level) < d.height + Pow2(level)
  {
  }

  /** The source entry for sub-tile (x, y) of a granule placed at `origin`, read from `file`. */
  function SubTileSource<Img>(src: BandSource<Img>, origin: Rect, file: FilePath, x: nat, y: nat, level: nat): TileSource<Img>
  {
    var rect := src.levelBounds(SubTileRectL0(origin, src.Layout(), x, y), level);
    match src.decode(DecodeRequest(file, y, x, DecodeLayout(src.Layout(), x, y), level))
    case Decoded(img) => Translated(img, rect.x, rect.y)
    case NullImage => NullSource
    case DecodeIOError => ConstantBlock(rect.width, rect.height, DecodeFailureFill)
  }

  /** Entries for sub-tiles (x, 0) .. (x, n - 1). */
  function ColumnSources<Img>(src: BandSource<Img>, origin: Rect, file: FilePath, x: nat, n: nat, level: nat): seq<TileSource<Img>>
  {
    if n == 0 then [] else ColumnSources(src, origin, file, x, n - 1, level) + [SubTileSource(src, origin, file, x, n - 1, level)]
  }

  /** Entries for the first n columns of a granule, column by column. */
  function GranuleSources<Img>(src: BandSource<Img>, origin: Rect, file: FilePath, n: nat, level: nat): seq<TileSource<Img>>
  {
    if n == 0 then [] else GranuleSources(src, origin, file, n - 1, level) + ColumnSources(src, origin, file, n - 1, src.Layout().numYTiles, level)
  }

  /**
   * `createImage`, granule by granule in scene order, from the entries
   * gathered so far: a granule with no file fails as soon as its first
   * sub-tile is visited, and the result is null as soon as the list is still
   * empty after a granule.
   */
  function SceneFrom<Img>(src: BandSource<Img>, ids: seq<TileId>, acc: seq<TileSource<Img>>, level: nat): MosaicImage<TileSource<Img>>
    requires src.Valid() && forall id :: id in ids ==> id in src.scene.tileIds
    decreases |ids|
  {
    if ids == [] then
      if acc == [] then NoMosaic else Mosaic(acc, CropBounds(src, level))
    else
      var id := ids[0];
      var files := src.band.tileFiles;
      if id !in files && src.Layout().numXTiles > 0 && src.Layout().numYTiles > 0 then NullPointerFault(id)
      else
        var granule := if id in files then GranuleSources(src, TileOrigin(src, id), files[id], src.Layout().numXTiles, level) else [];
        if acc + granule == [] then NoMosaic else SceneFrom(src, ids[1..], acc + granule, level)
  }

  function CreateImageSpec<Img>(src: BandSource<Img>, level: nat): MosaicImage<TileSource<Img>>
    requires src.Valid()
  {
    SceneFrom(src, src.scene.tileIds, [], level)
  }

  /** Column x has one entry per row, row y at index y. */
  lemma {:induction false} ColumnSourcesShape<Img>(src: BandSource<Img>, origin: Rect, file: FilePath, x: nat, n: nat, level: nat)
    ensures |ColumnSources(src, origin, file, x, n, level)| == n
    ensures forall y :: 0 <= y < n ==>
              ColumnSources(src, origin, file, x, n, level)[y] == SubTileSource(src, origin, file, x, y, level)
  {
    if n > 0 {
      ColumnSourcesShape(src, origin, file, x, n - 1, level);
    }
  }

  /** A granule's first n columns contribute n * numYTiles entries. */
  lemma {:induction false} GranuleSourcesLength<Img>(src: BandSource<Img>, origin: Rect, file: FilePath, n: nat, level: nat)
    ensures |GranuleSources(src, origin, file, n, level)| == n * src.Layout().numYTiles
  {
    if n > 0 {
      var rows := src.Layout().numYTiles;
      GranuleSourcesLength(src, origin, file, n - 1, level);
      ColumnSourcesShape(src, origin, file, n - 1, rows, level);
      assert (n - 1) * rows + rows == n * rows;
    }
  }

  /** Columns come x outer, y inner: sub-tile (x, y) sits at index x * numYTiles + y. */
  lemma {:induction false} GranuleSourcesEntry<Img>(src: BandSource<Img>, origin: Rect, file: FilePath, n: nat, level: nat, x: nat, y: nat)
    requires x < n && y < src.Layout().numYTiles
    ensures x * src.Layout().numYTiles + y < |GranuleSources(src, origin, file, n, level)|
    ensures GranuleSources(src, origin, file, n, level)[x * src.Layout().numYTiles + y]
            == SubTileSource(src, origin, file, x, y, level)
  {
    var rows := src.Layout().numYTiles;
    GranuleSourcesLength(src, origin, file, n, level);
    GranuleSourcesLength(src, origin, file, n - 1, level);
    MajorIndexBound(x, y, n, rows);
    ColumnSourcesShape(src, origin, file, n - 1, rows, level);
    if x < n - 1 {
      MajorIndexBound(x, y, n - 1, rows);
      GranuleSourcesEntry(src, origin, file, n - 1, level, x, y);
    } else {
      assert x * rows + y == (n - 1) * rows + y;
    }
  }

  /**
   * The entries of the granules of `ids`, in scene order; a granule without a
   * file contributes nothing.
   */
  function AllGranules<Img>(src: BandSource<Img>, ids: seq<TileId>, level: nat): seq<TileSource<Img>>
    requires src.Valid() && forall id :: id in ids ==> id in src.scene.tileIds
  {
    if ids == [] then []
    else
      var files := src.band.tileFiles;
      (if ids[0] in files then GranuleSources(src, TileOrigin(src, ids[0]), files[ids[0]], src.Layout().numXTiles, level) else [])
      + AllGranules(src, ids[1..], level)
  }

  /** A band whose granules have no sub-tiles yields no mosaic (unless entries were already gathered). */
  lemma {:induction false} SceneWithoutSubTiles<Img>(src: BandSource<Img>, ids: seq<TileId>, acc: seq<TileSource<Img>>, level: nat)
    requires src.Valid() && forall id :: id in ids ==> id in src.scene.tileIds
    requires src.Layout().numXTiles == 0 || src.Layout().numYTiles == 0
    ensures SceneFrom(src, ids, acc, level) == if acc == [] then NoMosaic else Mosaic(acc, CropBounds(src, level))
  {
    if ids != [] {
      var id := ids[0];
      if id in src.band.tileFiles {
        GranuleSourcesLength(src, TileOrigin(src, id), src.band.tileFiles[id], src.Layout().numXTiles, level);
      }
      assert acc + [] == acc;
      SceneWithoutSubTiles(src, ids[1..], acc, level);
    }
  }

  /**
   * When every granule has a file and sub-tiles, the result is the mosaic of
   * all their entries, cropped to the level bounds of the scene.
   */
  lemma {:induction false} SceneAllPresent<Img>(src: BandSource<Img>, ids: seq<TileId>, acc: seq<TileSource<Img>>, level: nat)
    requires src.Valid() && forall id :: id in ids ==> id in src.scene.tileIds
    requires src.Layout().numXTiles > 0 && src.Layout().numYTiles > 0
    requires forall id :: id in ids ==> id in src.band.tileFiles
    ensures SceneFrom(src, ids, acc, level)
            == if acc == [] && ids == [] then NoMosaic else Mosaic(acc + AllGranules(src, ids, level), CropBounds(src, level))
  {
    if ids == [] {
      assert acc + [] == acc;
    } else {
      var id := ids[0];
      var layout := src.Layout();
      var granule := GranuleSources(src, TileOrigin(src, id), src.band.tileFiles[id], layout.numXTiles, level);
      GranuleSourcesLength(src, TileOrigin(src, id), src.band.tileFiles[id], layout.numXTiles, level);
      MulMono(1, layout.numXTiles, layout.numYTiles);
      assert |granule| > 0;
      SceneAllPresent(src, ids[1..], acc + granule, level);
      assert acc + granule + AllGranules(src, ids[1..], level) == acc + AllGranules(src, ids, level);
    }
  }

  /**
   * The first granule (in scene order) that has no file ends `createImage`
   * with a `NullPointerException`, provided granules have sub-tiles.
   */
  lemma {:induction false} SceneFirstMissing<Img>(src: BandSource<Img>, ids: seq<TileId>, acc: seq<TileSource<Img>>, k: nat, level: nat)
    requires src.Valid() && forall id :: id in ids ==> id in src.scene.tileIds
    requires src.Layout().numXTiles > 0 && src.Layout().numYTiles > 0
    requires k < |ids| && ids[k] !in src.band.tileFiles
    requires forall i :: 0 <= i < k ==> ids[i] in src.band.tileFiles
    ensures SceneFrom(src, ids, acc, level) == NullPointerFault(ids[k])
  {
    if k > 0 {
      var id := ids[0];
      var layout := src.Layout();
      var granule := GranuleSources(src, TileOrigin(src, id), src.band.tileFiles[id], layout.numXTiles, level);
      GranuleSourcesLength(src, TileOrigin(src, id), src.band.tileFiles[id], layout.numXTiles, level);
      MulMono(1, layout.numXTiles, layout.numYTiles);
      assert |granule| > 0;
      SceneFirstMissing(src, ids[1..], acc + granule, k - 1, level);
    }
  }

  lemma MulPred(k: nat, per: nat)
    requires k > 0
    ensures k * per == per + (k - 1) * per
  {
  }

  /** |ids| granules of numXTiles * numYTiles entries each. */
  lemma {:induction false} AllGranulesLength<Img>(src: BandSource<Img>, ids: seq<TileId>, level: nat)
    requires src.Valid() && forall id :: id in ids ==> id in src.scene.tileIds
    requires forall id :: id in ids ==> id in src.band.tileFiles
    ensures |AllGranules(src, ids, level)| == |ids| * (src.Layout().numXTiles * src.Layout().numYTiles)
  {
    if ids != [] {
      var per := src.Layout().numXTiles * src.Layout().numYTiles;
      GranuleSourcesLength(src, TileOrigin(src, ids[0]), src.band.tileFiles[ids[0]], src.Layout().numXTiles, level);
      AllGranulesLength(src, ids[1..], level);
      MulPred(|ids|, per);
    }
  }

  /** Position of sub-tile (x, y) of the g-th granule in the mosaic's source list. */
  function Slot(layout: TileLayout, g: nat, x: nat, y: nat): nat
  {
    g * (layout.numXTiles * layout.numYTiles) + (x * layout.numYTiles + y)
  }

  /** The slot arithmetic: an offset within a granule is below its size, and each granule before shifts the slot by that size. */
  lemma SlotFacts(layout: TileLayout, g: nat, x: nat, y: nat)
    requires x < layout.numXTiles && y < layout.numYTiles
    ensures x * layout.numYTiles + y < layout.numXTiles * layout.numYTiles
    ensures g == 0 ==> Slot(layout, g, x, y) == x * layout.numYTiles + y
    ensures g > 0 ==> Slot(layout, g, x, y) == layout.numXTiles * layout.numYTiles + Slot(layout, g - 1, x, y)
  {
    MulMono(x + 1, layout.numXTiles, layout.numYTiles);
    if g > 0 {
      MulPred(g, layout.numXTiles * layout.numYTiles);
    }
  }

  /** Sub-tile (x, y) of granule g sits at index g * (numXTiles * numYTiles) + x * numYTiles + y. */
  lemma {:induction false} AllGranulesEntry<Img>(src: BandSource<Img>, ids: seq<TileId>, level: nat, g: nat, x: nat, y: nat)
    requires src.Valid() && forall id :: id in ids ==> id in src.scene.tileIds
    requires forall id :: id in ids ==> id in src.band.tileFiles
    requires g < |ids| && x < src.Layout().numXTiles && y < src.Layout().numYTiles
    ensures var i := Slot(src.Layout(), g, x, y);
            i < |AllGranules(src, ids, level)|
            && AllGranules(src, ids, level)[i]
               == SubTileSource(src, TileOrigin(src, ids[g]), src.band.tileFiles[ids[g]], x, y, level)
  {
    var layout := src.Layout();
    var id := ids[0];
    var granule := GranuleSources(src, TileOrigin(src, id), src.band.tileFiles[id], layout.numXTiles, level);
    var rest := AllGranules(src, ids[1..], level);
    assert AllGranules(src, ids, level) == granule + rest;
    GranuleSourcesLength(src, TileOrigin(src, id), src.band.tileFiles[id], layout.numXTiles, level);
    SlotFacts(layout, g, x, y);
    if g == 0 {
      GranuleSourcesEntry(src, TileOrigin(src, id), src.band.tileFiles[id], layout.numXTiles, level, x, y);
    } else {
      var j := Slot(layout, g - 1, x, y);
      AllGranulesEntry(src, ids[1..], level, g - 1, x, y);
      assert ids[1..][g - 1] == ids[g];
      assert (granule + rest)[|granule| + j] == rest[j];
    }
  }

  /**
   * `createImage` when every scene granule has a file: a mosaic of |tiles| *
   * numXTiles * numYTiles entries, cropped to the level bounds of the band's
   * native-resolution scene size.
   */
  lemma CreateImageAllPresent<Img>(src: BandSource<Img>, level: nat)
    requires src.Valid()
    requires src.Layout().numXTiles > 0 && src.Layout().numYTiles > 0
    requires |src.scene.tileIds| > 0
    requires forall id :: id in src.scene.tileIds ==> id in src.band.tileFiles
    ensures var r := CreateImageSpec(src, level);
            && r == Mosaic(AllGranules(src, src.scene.tileIds, level), CropBounds(src, level))
            && |r.sources| == |src.scene.tileIds| * (src.Layout().numXTiles * src.Layout().numYTiles)
  {
    var all := AllGranules(src, src.scene.tileIds, level);
    SceneAllPresent(src, src.scene.tileIds, [], level);
    assert [] + all == all;
    AllGranulesLength(src, src.scene.tileIds, level);
  }

  /**
   * In that case, entry Slot(layout, g, x, y) = g * numXTiles * numYTiles + x * numYTiles + y is
   * sub-tile (x, y) of granule g: its decoded image translated to its level
   * position, null, or, when decoding failed, a constant-0 block the size of
   * its level rectangle.
   */
  lemma CreateImageEntry<Img>(src: BandSource<Img>, level: nat, g: nat, x: nat, y: nat)
    requires src.Valid()
    requires forall id :: id in src.scene.tileIds ==> id in src.band.tileFiles
    requires g < |src.scene.tileIds| && x < src.Layout().numXTiles && y < src.Layout().numYTiles
    ensures var r := CreateImageSpec(src, level);
            var ids := src.scene.tileIds;
            var layout := src.Layout();
            var rect := src.levelBounds(SubTileRectL0(TileOrigin(src, ids[g]), layout, x, y), level);
            var i := Slot(layout, g, x, y);
            && r.Mosaic?
            && i < |r.sources|
            && r.sources[i] == match src.decode(DecodeRequest(src.band.tileFiles[ids[g]], y, x, DecodeLayout(layout, x, y), level))
                               case Decoded(img) => Translated(img, rect.x, rect.y)
                               case NullImage => NullSource
                               case DecodeIOError => ConstantBlock(rect.width, rect.height, 0)
  {
    var all := AllGranules(src, src.scene.tileIds, level);
    SceneAllPresent(src, src.scene.tileIds, [], level);
    assert [] + all == all;
    var layout := src.Layout();
    var i := Slot(layout, g, x, y);
    AllGranulesEntry(src, src.scene.tileIds, level, g, x, y);
    assert CreateImageSpec(src, level) == Mosaic(all, CropBounds(src, level));
    assert all[i] == SubTileSource(src, TileOrigin(src, src.scene.tileIds[g]), src.band.tileFiles[src.scene.tileIds[g]], x, y, level);
  }

  /**
   * The inner loop of `createImage` over the rows of sub-tile column x of a
   * granule read from `file`: each sub-tile is decoded with its own layout
   * (edge sub-tiles get the remaining width and height), translated to its
   * level position, or replaced by a constant block when decoding fails.
   */
  method ReadColumn<Img>(src: BandSource<Img>, origin: Rect, file: FilePath, x: nat, acc: seq<TileSource<Img>>, level: nat)
    returns (tileImages: seq<TileSource<Img>>)
    ensures tileImages == acc + ColumnSources(src, origin, file, x, src.Layout().numYTiles, level)
  {
    var layout := src.band.layout;
    tileImages := acc;
    var y := 0;
    while y < layout.numYTiles
      invariant 0 <= y <= layout.numYTiles
      invariant tileImages == acc + ColumnSources(src, origin, file, x, y, level)
    {
      var rect := src.levelBounds(SubTileRectL0(origin, layout, x, y), level);
      var current := layout;
      if y == layout.numYTiles - 1 || x == layout.numXTiles - 1 {
        current := TileLayout(layout.width, layout.height,
                              layout.width - x * layout.tileWidth, layout.height - y * layout.tileHeight,
                              layout.numXTiles, layout.numYTiles, layout.numResolutions);
      }
      assert current == DecodeLayout(layout, x, y);
      var opImage: TileSource<Img>;
      match src.decode(DecodeRequest(file, y, x, current, level)) {
        case Decoded(img) =>
          opImage := Translated(img, rect.x, rect.y);
        case NullImage =>
          opImage := NullSource;
        case DecodeIOError =>
          opImage := ConstantBlock(rect.width, rect.height, DecodeFailureFill);
      }
      assert opImage == SubTileSource(src, origin, file, x, y, level);
      ConcatAssoc(acc, ColumnSources(src, origin, file, x, y, level), [opImage]);
      tileImages := tileImages + [opImage];
      y := y + 1;
    }
  }

  /** The outer loop of `createImage` over the sub-tile columns of one granule. */
  method ReadGranule<Img>(src: BandSource<Img>, origin: Rect, file: FilePath, acc: seq<TileSource<Img>>, level: nat)
    returns (tileImages: seq<TileSource<Img>>)
    ensures tileImages == acc + GranuleSources(src, origin, file, src.Layout().numXTiles, level)
  {
    tileImages := acc;
    var x := 0;
    while x < src.band.layout.numXTiles
      invariant 0 <= x <= src.band.layout.numXTiles
      invariant tileImages == acc + GranuleSources(src, origin, file, x, level)
    {
      ConcatAssoc(acc, GranuleSources(src, origin, file, x, level), ColumnSources(src, origin, file, x, src.Layout().numYTiles, level));
      tileImages := ReadColumn(src, origin, file, x, tileImages, level);
      x := x + 1;
    }
  }

  /**
   * `BandL1cSceneMultiLevelSource.createImage(level)`. A granule without a file
   * fails on its first sub-tile (`imageFile.toPath()` on null); one with no
   * sub-tiles contributes nothing.
   */
  method CreateImage<Img>(src: BandSource<Img>, level: nat) returns (r: MosaicImage<TileSource<Img>>)
    requires src.Valid()
    ensures r == CreateImageSpec(src, level)
  {
    var ids := src.scene.tileIds;
    var layout := src.band.layout;
    var tileImages: seq<TileSource<Img>> := [];
    var t := 0;
    while t < |ids|
      invariant 0 <= t <= |ids|
      invariant SceneFrom(src, ids, [], level) == SceneFrom(src, ids[t..], tileImages, level)
    {
      var id := ids[t];
      assert ids[t..][0] == id && ids[t..][1..] == ids[t + 1..];
      ghost var start := tileImages;
      if id !in src.band.tileFiles {
        if layout.numXTiles > 0 && layout.numYTiles > 0 {
          return NullPointerFault(id);
        }
        assert start + [] == start;
      } else {
        var origin := src.scene.positions[(id, src.band.information.resolution)];
        assert origin == TileOrigin(src, id);
        tileImages := ReadGranule(src, origin, src.band.tileFiles[id], tileImages, level);
      }
      assert SceneFrom(src, ids[t..], start, level)
          == if tileImages == [] then NoMosaic else SceneFrom(src, ids[t + 1..], tileImages, level);
      if tileImages == [] {
        return NoMosaic;
      }
      t := t + 1;
    }
    if tileImages == [] {
      return NoMosaic;
    }
    return Mosaic(tileImages, CropBounds(src, level));
  }
}
