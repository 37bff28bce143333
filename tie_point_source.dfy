/**
 * `TiePointGridL1cSceneMultiLevelSource`: the multi-level source of one of the
 * four angle bands. Per granule it computes the tie-point grids once, keeps
 * them in its `tiePointGridsMap` cache, and at each level overlays the image of
 * its grid index, translated to the granule's position at the product
 * resolution, cropped to the level size of the scene.
 */
module TiePointSource {
  import opened Wrappers
  import opened Geometry
  import opened Product
  import opened AngleGrids

  /** `tiePointGrids[gridIndex].getSourceImage().getImage(level)`. */
  datatype GridImage = GridImage(grids: TiePointGrids, gridIndex: nat, level: nat)

  /** Result of `createL1cTileImage`: an image or null, or an exception that escapes it. */
  datatype TileImageOutcome = TileImage(image: Option<GridImage>) | TileFault

  /** One entry of the mosaic's source list: a (possibly null) image translated by (dx, dy). */
  datatype Translation = Translation(image: Option<GridImage>, dx: int, dy: int)

  /** Result of `createImage`: null, the cropped mosaic of the listed sources, or an exception. */
  datatype TiePointMosaic = NoTiePointMosaic | TiePointMosaic(sources: seq<Translation>, crop: Rect) | TiePointFault

  class TiePointGridSource {
    const scene: SceneLayout
    const metadata: map<TileId, TileAngles>
    const productResolution: Resolution
    const tiePointGridIndex: nat
    const levelBounds: (Rect, nat) -> Rect

    /** `tiePointGridsMap`: the grids computed so far, per tile id. */
    var tiePointGridsMap: map<TileId, TiePointGrids>

    /** Every tile id for which `createL1cTileTiePointGrids` ran, in call order. */
    ghost var computations: seq<TileId>

    /** `metadata.getTile(tileId)`, null when the metadata has no such tile. */
    function Tile(tileId: TileId): Option<TileAngles>
    {
      if tileId in metadata then Some(metadata[tileId]) else None
    }

    /**
     * The cache holds exactly the non-null grids computed so far, and the
     * grids of a tile are computed at most once unless they are null (or the
     * computation throws).
     */
    ghost predicate Valid()
      reads this
    {
      && tiePointGridIndex < 4
      && (forall id :: id in tiePointGridsMap ==> TileGrids(Tile(id)) == Grids(tiePointGridsMap[id]))
      && (forall id :: id in tiePointGridsMap <==> id in computations && TileGrids(Tile(id)).Grids?)
      && (forall i, j :: 0 <= i < j < |computations| && computations[i] == computations[j] ==>
            !TileGrids(Tile(computations[i])).Grids?)
    }

    constructor(scene: SceneLayout, metadata: map<TileId, TileAngles>, productResolution: Resolution,
                tiePointGridIndex: nat, levelBounds: (Rect, nat) -> Rect)
      requires tiePointGridIndex < 4
      ensures Valid()
      ensures this.scene == scene && this.metadata == metadata && this.productResolution == productResolution
      ensures this.tiePointGridIndex == tiePointGridIndex && this.levelBounds == levelBounds
      ensures tiePointGridsMap == map[] && computations == []
    {
      this.scene := scene;
      this.metadata := metadata;
      this.productResolution := productResolution;
      this.tiePointGridIndex := tiePointGridIndex;
      this.levelBounds := levelBounds;
      tiePointGridsMap := map[];
      computations := [];
    }

    /** The image `createL1cTileImage(tileId, level)` yields, whatever the cache holds. */
    function TileImageOf(tileId: TileId, level: nat): TileImageOutcome
    {
      match TileGrids(Tile(tileId))
      case Grids(g) => TileImage(Some(GridImage(g, tiePointGridIndex, level)))
      case NoSunGrid => TileImage(None)
      case AngleFault => TileFault
    }

    /** `createL1cTileImage`: serve the grids from the cache, or compute them and cache them if not null. */
    method CreateL1cTileImage(tileId: TileId, level: nat) returns (r: TileImageOutcome)
      requires Valid()
      modifies this
      ensures Valid()
      ensures r == TileImageOf(tileId, level)
      ensures tileId in old(tiePointGridsMap) ==>
                tiePointGridsMap == old(tiePointGridsMap) && computations == old(computations)
      ensures tileId !in old(tiePointGridsMap) ==>
                && computations == old(computations) + [tileId]
                && tiePointGridsMap == (if TileGrids(Tile(tileId)).Grids?
                                        then old(tiePointGridsMap)[tileId := TileGrids(Tile(tileId)).grids]
                                        else old(tiePointGridsMap))
      ensures tiePointGridsMap.Keys == if tileId in old(tiePointGridsMap) || !TileGrids(Tile(tileId)).Grids?
                                       then old(tiePointGridsMap).Keys else old(tiePointGridsMap).Keys + {tileId}
    {
      var tiePointGrids: Option<TiePointGrids> := None;
      if tileId in tiePointGridsMap {
        tiePointGrids := Some(tiePointGridsMap[tileId]);
      }
      if tiePointGrids.None? {
        var created := CreateTileTiePointGrids(Tile(tileId));
        computations := computations + [tileId];
        match created {
          case AngleFault =>
            return TileFault;
          case NoSunGrid =>
          case Grids(g) =>
            tiePointGrids := Some(g);
            tiePointGridsMap := tiePointGridsMap[tileId := g];
        }
      }
      if tiePointGrids.Some? {
        return TileImage(Some(GridImage(tiePointGrids.value, tiePointGridIndex, level)));
      }
      return TileImage(None);
    }

    /**
     * `createImage` over the tiles `ids`, from the entries gathered so far:
     * each tile's image translated to its level position at the product
     * resolution; an exception from a tile ends it.
     */
    function MosaicFrom(ids: seq<TileId>, acc: seq<Translation>, level: nat): TiePointMosaic
      requires scene.PlacedAt(productResolution) && forall id :: id in ids ==> id in scene.tileIds
    {
      if ids == [] then
        if acc == [] then NoTiePointMosaic
        else
          var d := scene.dimensions[productResolution];
          TiePointMosaic(acc, levelBounds(Rect(0, 0, d.width, d.height), level))
      else
        match TileImageOf(ids[0], level)
        case TileFault => TiePointFault
        case TileImage(image) =>
          var rect := levelBounds(scene.positions[(ids[0], productResolution)], level);
          MosaicFrom(ids[1..], acc + [Translation(image, rect.x, rect.y)], level)
    }

    /**
     * When no tile throws and there is at least one entry, the result lists
     * one translated entry per tile, in scene order, after those gathered
     * so far, and is cropped to the level bounds of the product-resolution
     * scene size.
     */
    lemma {:induction false} MosaicFromNoFault(ids: seq<TileId>, acc: seq<Translation>, level: nat)
      requires scene.PlacedAt(productResolution) && forall id :: id in ids ==> id in scene.tileIds
      requires forall id :: id in ids ==> !TileImageOf(id, level).TileFault?
      requires acc != [] || ids != []
      ensures var r := MosaicFrom(ids, acc, level);
              var d := scene.dimensions[productResolution];
              && r.TiePointMosaic?
              && r.crop == levelBounds(Rect(0, 0, d.width, d.height), level)
              && |r.sources| == |acc| + |ids|
              && r.sources[..|acc|] == acc
              && forall i :: 0 <= i < |ids| ==>
                   var rect := levelBounds(scene.positions[(ids[i], productResolution)], level);
                   r.sources[|acc| + i] == Translation(TileImageOf(ids[i], level).image, rect.x, rect.y)
    {
      MosaicFromShape(ids, acc, level);
      forall i | 0 <= i < |ids|
        ensures var rect := levelBounds(scene.positions[(ids[i], productResolution)], level);
                MosaicFrom(ids, acc, level).sources[|acc| + i]
                == Translation(TileImageOf(ids[i], level).image, rect.x, rect.y)
      {
        MosaicFromEntry(ids, acc, level, i);
      }
    }

    /** Without exceptions the mosaic keeps the entries gathered so far and adds one per tile. */
    lemma {:induction false} MosaicFromShape(ids: seq<TileId>, acc: seq<Translation>, level: nat)
      requires scene.PlacedAt(productResolution) && forall id :: id in ids ==> id in scene.tileIds
      requires forall id :: id in ids ==> !TileImageOf(id, level).TileFault?
      requires acc != [] || ids != []
      ensures var r := MosaicFrom(ids, acc, level);
              var d := scene.dimensions[productResolution];
              && r.TiePointMosaic?
              && r.crop == levelBounds(Rect(0, 0, d.width, d.height), level)
              && |r.sources| == |acc| + |ids|
              && r.sources[..|acc|] == acc
    {
      if ids != [] {
        var rect := levelBounds(scene.positions[(ids[0], productResolution)], level);
        var entry := Translation(TileImageOf(ids[0], level).image, rect.x, rect.y);
        MosaicFromShape(ids[1..], acc + [entry], level);
        var r := MosaicFrom(ids, acc, level);
        assert r == MosaicFrom(ids[1..], acc + [entry], level);
        assert r.sources[..|acc|] == r.sources[..|acc| + 1][..|acc|];
        assert r.sources[..|acc|] == (acc + [entry])[..|acc|] == acc;
      }
    }

    /** Without exceptions tile i of `ids` becomes entry |acc| + i, translated to its level position. */
    lemma {:induction false} MosaicFromEntry(ids: seq<TileId>, acc: seq<Translation>, level: nat, i: nat)
      requires scene.PlacedAt(productResolution) && forall id :: id in ids ==> id in scene.tileIds
      requires forall id :: id in ids ==> !TileImageOf(id, level).TileFault?
      requires i < |ids|
      ensures var r := MosaicFrom(ids, acc, level);
              var rect := levelBounds(scene.positions[(ids[i], productResolution)], level);
              && r.TiePointMosaic? && |acc| + i < |r.sources|
              && r.sources[|acc| + i] == Translation(TileImageOf(ids[i], level).image, rect.x, rect.y)
    {
      var rect := levelBounds(scene.positions[(ids[0], productResolution)], level);
      var entry := Translation(TileImageOf(ids[0], level).image, rect.x, rect.y);
      MosaicFromShape(ids[1..], acc + [entry], level);
      assert MosaicFrom(ids, acc, level) == MosaicFrom(ids[1..], acc + [entry], level);
      if i == 0 {
        var r := MosaicFrom(ids, acc, level);
        assert r.sources[..|acc| + 1] == acc + [entry];
        assert r.sources[|acc|] == r.sources[..|acc| + 1][|acc|];
      } else {
        MosaicFromEntry(ids[1..], acc + [entry], level, i - 1);
        assert ids[1..][i - 1] == ids[i];
        assert |acc + [entry]| + (i - 1) == |acc| + i;
      }
    }

    /** The first tile (in scene order) whose grids cannot be computed makes `createImage` throw. */
    lemma {:induction false} MosaicFromFirstFault(ids: seq<TileId>, acc: seq<Translation>, level: nat, k: nat)
      requires scene.PlacedAt(productResolution) && forall id :: id in ids ==> id in scene.tileIds
      requires k < |ids| && TileImageOf(ids[k], level).TileFault?
      requires forall i :: 0 <= i < k ==> !TileImageOf(ids[i], level).TileFault?
      ensures MosaicFrom(ids, acc, level) == TiePointFault
    {
      if k > 0 {
        var rect := levelBounds(scene.positions[(ids[0], productResolution)], level);
        var entry := Translation(TileImageOf(ids[0], level).image, rect.x, rect.y);
        assert forall i :: 0 <= i < k - 1 ==> ids[1..][i] == ids[i + 1];
        MosaicFromFirstFault(ids[1..], acc + [entry], level, k - 1);
      }
    }

    /** Under the J2K rule the crop is at the origin, ceil(dim / 2^level) in each direction. */
    lemma CropFollowsJ2kRule(level: nat)
      requires scene.PlacedAt(productResolution) && FollowsJ2kRule(levelBounds)
      requires forall id :: id in scene.tileIds ==> !TileImageOf(id, level).TileFault?
      requires scene.tileIds != []
      ensures var r := MosaicFrom(scene.tileIds, [], level);
              var d := scene.dimensions[productResolution];
              r.TiePointMosaic? && r.crop == Rect(0, 0, CeilDiv(d.width, Pow2(level)), CeilDiv(d.height, Pow2(level)))
    {
      MosaicFromNoFault(scene.tileIds, [], level);
    }

    /**
     * The tiles whose grids `createImage` computes when it visits `ids` with
     * the tiles `cached` in the cache, in visiting order: every tile not
     * cached at its visit, up to and including the first one that throws.
     */
    ghost function ComputedAfter(ids: seq<TileId>, cached: set<TileId>): seq<TileId>
    {
      if ids == [] then []
      else if ids[0] in cached then ComputedAfter(ids[1..], cached)
      else match TileGrids(Tile(ids[0]))
        case AngleFault => [ids[0]]
        case NoSunGrid => [ids[0]] + ComputedAfter(ids[1..], cached)
        case Grids(_) => [ids[0]] + ComputedAfter(ids[1..], cached + {ids[0]})
    }

    /** The tiles in the cache after `createImage` visits `ids` starting from `cached`. */
    ghost function CachedAfter(ids: seq<TileId>, cached: set<TileId>): set<TileId>
    {
      if ids == [] then cached
      else if ids[0] in cached then CachedAfter(ids[1..], cached)
      else match TileGrids(Tile(ids[0]))
        case AngleFault => cached
        case NoSunGrid => CachedAfter(ids[1..], cached)
        case Grids(_) => CachedAfter(ids[1..], cached + {ids[0]})
    }

    /** The cache only grows, and only by tiles that were computed and have grids. */
    lemma {:induction false} CachedAfterGrows(ids: seq<TileId>, cached: set<TileId>)
      ensures cached <= CachedAfter(ids, cached)
      ensures forall id :: id in CachedAfter(ids, cached) && id !in cached ==>
                id in ComputedAfter(ids, cached) && TileGrids(Tile(id)).Grids?
    {
      if ids != [] && ids[0] !in cached {
        match TileGrids(Tile(ids[0]))
        case AngleFault =>
        case NoSunGrid => CachedAfterGrows(ids[1..], cached);
        case Grids(_) => CachedAfterGrows(ids[1..], cached + {ids[0]});
      } else if ids != [] {
        CachedAfterGrows(ids[1..], cached);
      }
    }

    /**
     * Every tile with grids that `createImage` reaches before the first
     * exception is cached afterwards, so a later call does not compute it again.
     */
    lemma {:induction false} CachedAfterHolds(ids: seq<TileId>, cached: set<TileId>, k: nat)
      requires k < |ids| && TileGrids(Tile(ids[k])).Grids?
      requires forall i :: 0 <= i < k ==> ids[i] in cached || !TileGrids(Tile(ids[i])).AngleFault?
      ensures ids[k] in CachedAfter(ids, cached)
    {
      if k == 0 {
        if ids[0] in cached {
          CachedAfterGrows(ids[1..], cached);
        } else {
          CachedAfterGrows(ids[1..], cached + {ids[0]});
        }
      } else {
        var next := if ids[0] in cached || !TileGrids(Tile(ids[0])).Grids? then cached else cached + {ids[0]};
        assert forall i :: 0 <= i < k - 1 ==> ids[1..][i] == ids[i + 1];
        CachedAfterHolds(ids[1..], next, k - 1);
      }
    }

    /** One step of the visit: the tile at the front, then the rest from the cache it leaves. */
    lemma VisitStep(ids: seq<TileId>, cached: set<TileId>)
      requires ids != [] && !(ids[0] !in cached && TileGrids(Tile(ids[0])).AngleFault?)
      ensures var next := if ids[0] in cached || !TileGrids(Tile(ids[0])).Grids? then cached else cached + {ids[0]};
              && ComputedAfter(ids, cached)
                 == (if ids[0] in cached then [] else [ids[0]]) + ComputedAfter(ids[1..], next)
              && CachedAfter(ids, cached) == CachedAfter(ids[1..], next)
    {
    }

    /**
     * One pass of the tile loop of `createImage`: the image of tile `ids[t]`
     * translated to its level position and appended, or the exception it
     * throws, with the cache and the computations advanced by that tile.
     */
    method VisitTile(ids: seq<TileId>, t: nat, tileImages: seq<Translation>, level: nat,
                     ghost cached0: set<TileId>, ghost computations0: seq<TileId>)
      returns (fault: bool, next: seq<Translation>)
      requires Valid() && scene.PlacedAt(productResolution) && ids == scene.tileIds && t < |ids|
      requires MosaicFrom(ids, [], level) == MosaicFrom(ids[t..], tileImages, level)
      requires CachedAfter(ids, cached0) == CachedAfter(ids[t..], tiePointGridsMap.Keys)
      requires computations0 + ComputedAfter(ids, cached0) == computations + ComputedAfter(ids[t..], tiePointGridsMap.Keys)
      modifies this
      ensures Valid()
      ensures fault ==> && MosaicFrom(ids, [], level) == TiePointFault
                        && CachedAfter(ids, cached0) == tiePointGridsMap.Keys
                        && computations0 + ComputedAfter(ids, cached0) == computations
      ensures !fault ==> && MosaicFrom(ids, [], level) == MosaicFrom(ids[t + 1..], next, level)
                         && CachedAfter(ids, cached0) == CachedAfter(ids[t + 1..], tiePointGridsMap.Keys)
                         && computations0 + ComputedAfter(ids, cached0)
                            == computations + ComputedAfter(ids[t + 1..], tiePointGridsMap.Keys)
    {
      var tileId := ids[t];
      assert ids[t..][0] == tileId && ids[t..][1..] == ids[t + 1..];
      ghost var cached := tiePointGridsMap.Keys;
      ghost var before := computations;
      var opImage := CreateL1cTileImage(tileId, level);
      if opImage.TileFault? {
        assert ComputedAfter(ids[t..], cached) == [tileId];
        return true, tileImages;
      }
      VisitStep(ids[t..], cached);
      ghost var delta: seq<TileId> := if tileId in cached then [] else [tileId];
      ghost var rest := ComputedAfter(ids[t + 1..], tiePointGridsMap.Keys);
      assert ComputedAfter(ids[t..], cached) == delta + rest;
      ConcatAssoc(before, delta, rest);
      var tileRectangle := scene.positions[(tileId, productResolution)];
      var scaledRectangle := levelBounds(tileRectangle, level);
      return false, tileImages + [Translation(opImage.image, scaledRectangle.x, scaledRectangle.y)];
    }

    /**
     * `createImage(level)`. The cache keeps what it held and gains the grids
     * of the tiles visited before the first exception; the grids computed are
     * those of the visited tiles that were not cached.
     */
    method CreateImage(level: nat) returns (r: TiePointMosaic)
      requires Valid() && scene.PlacedAt(productResolution)
      modifies this
      ensures Valid()
      ensures r == MosaicFrom(scene.tileIds, [], level)
      ensures old(tiePointGridsMap).Keys <= tiePointGridsMap.Keys
      ensures tiePointGridsMap.Keys == CachedAfter(scene.tileIds, old(tiePointGridsMap).Keys)
      ensures computations == old(computations) + ComputedAfter(scene.tileIds, old(tiePointGridsMap).Keys)
    {
      var ids := scene.tileIds;
      var tileImages: seq<Translation> := [];
      var t := 0;
      ghost var cached0, computations0 := tiePointGridsMap.Keys, computations;
      CachedAfterGrows(ids, cached0);
      while t < |ids|
        invariant 0 <= t <= |ids|
        invariant Valid()
        invariant MosaicFrom(ids, [], level) == MosaicFrom(ids[t..], tileImages, level)
        invariant CachedAfter(ids, cached0) == CachedAfter(ids[t..], tiePointGridsMap.Keys)
        invariant computations0 + ComputedAfter(ids, cached0) == computations + ComputedAfter(ids[t..], tiePointGridsMap.Keys)
      {
        var fault;
        fault, tileImages := VisitTile(ids, t, tileImages, level, cached0, computations0);
        if fault {
          return TiePointFault;
        }
        t := t + 1;
      }
      if tileImages == [] {
        return NoTiePointMosaic;
      }
      var dimensionLevel0 := scene.dimensions[productResolution];
      var rectangle := levelBounds(Rect(0, 0, dimensionLevel0.width, dimensionLevel0.height), level);
      return TiePointMosaic(tileImages, rectangle);
    }
  }
}
