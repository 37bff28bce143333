# Sentinel-2 ortho reader scene assembly, granule image names and tool-adapter descriptors, in Dafny

This project models the parts of the Sentinel-2 Toolbox (s2tbx) that decide what an opened
Level-1C ortho product looks like. It also models two small descriptor classes of the
tool-adapter framework.

- **Scene mosaic** (`SceneMosaic`, `Geometry`):
  - for one band and one pyramid level, `BandL1cSceneMultiLevelSource.createImage` visits every
    granule of the scene, and inside each granule every internal JPEG 2000 sub-tile, column by
    column;
  - each sub-tile gets its level-0 rectangle, and an edge sub-tile gets a recomputed decoder
    layout;
  - each sub-tile is decoded and translated, or replaced by a constant-0 block when decoding
    fails;
  - the list is overlaid and cropped to the level size of the scene (the "J2K rule", ceil(dim /
    2^level), as in Annex B.5 of ISO/IEC 15444-1).
- **Angle tie-point grids** (`AngleGrids`, `TiePointSource`):
  - `createL1cTileTiePointGrids` copies the sun angles and merges the per-detector viewing angles
    of a granule sample by sample;
  - `TiePointGridL1cSceneMultiLevelSource` caches the grids per granule in `tiePointGridsMap` and
    builds the scene mosaic of one angle band.
- **Bands and masks of a product** (`BandFiles`, `Rescale`, `Masks`, `Product`):
  - the granule filter and the per-band granule→file map of `getMosaicProduct`;
  - which bands are kept;
  - `scaleBands` (choice of the reference band, which bands are rescaled);
  - `addIndexMasks`;
  - `addVectorMasks`/`addVectorMask` (polygon selection, features, per-resolution and per-band
    mask names);
  - `getBandNames`.
- **Granule image file names** (`GranuleImageFilename`): the anchored fixed-width regular
  expression of `S2L1CGranuleImageFilename` as a recogniser. A round trip is proved in both
  directions. The character classes of the expression are written like `[A-Z|0-9]`, so a
  vertical bar is accepted wherever a letter or digit is. The model keeps this (the
  `BarIsAccepted`).
- **Tool-adapter descriptors** (`OperatorDescriptor`, `ParameterDescriptor`):
  - `ToolAdapterOperatorDescriptor`: menu group/entry splitting, null-default getters, lists that
    are created lazily and mutated, the copy constructors and `createCopy`, and the name/alias
    validation of `fromXml`;
  - `ToolParameterDescriptor`: the lazily defaulted parameter type and its four classification
    predicates.
- **Support** (`Text`, `Wrappers`): the Java string operations the code relies on.
  - `toLowerCase`, `equalsIgnoreCase`, `%d`, `replace`, `split("/")` with trailing empty tokens
    dropped, and `lastIndexOf`.

Modelling choices:

- **Mutable state and loops.**
  - Objects whose fields the code updates are classes: the tie-point source with its cache, and
    the two descriptors.
  - Loops that build lists or maps are methods with loop invariants. Each is proved equal to a
    specification function, and the properties are proved about those functions.
- **Foreign code as parameters.** These are function-typed parameters of the model:
  - the JPEG 2000 decoder, which yields an image, null or an `IOException`;
  - `DefaultMultiLevelSource.getLevelImageBounds`;
  - the granule directory name parser;
  - `File.exists`;
  - the GML polygon reader;
  - the `MaskInfo` level test and per-band names.
- **The level-bounds function.** Where a result depends on it, the lemma assumes `FollowsJ2kRule`
  (an origin-0 rectangle maps to ceil(w / 2^level) × ceil(h / 2^level)). `CeilLevelBounds` is
  one function that satisfies this rule.
- **JAI images are values.** They are represented by what they are built from: a translated
  image with its offsets, a constant block with its size, a mosaic as its source list with its
  crop rectangle, and a rescaled image as `Rescaled(reference, source)`.
- **Float samples** are `Finite(real) | NaN | Infinite`.
- **Colours.** The shared `ColorIterator` is a counter. The i-th index mask gets
  `IteratorColor(tick + i)`.
- **The constants of the tool-adapter framework.** `ToolAdapterConstants` is not part of this
  model, so its four parameter-type masks are four distinct constructors, and
  `TOOL_SOURCE_PRODUCT_ID` is the constructor `ToolSourceProduct`.

Three behaviours of the code are worth naming, because they are easy to misread:

- **Viewing-angle merge.** The loop at `Sentinel2OrthoProductReader.java:533-549` overwrites the
  sample at every usable detector grid, so the LAST usable grid wins (`ViewZenithLastWins`,
  `ViewAzimuthLastWins`).
- **Azimuth test.** The azimuth test checks the ZENITH sample for infinity (line 545). An
  out-of-range zenith there throws, the exception is caught at line 551, and the azimuth is not
  written (`AzimuthTestChecksZenith`).
- **Missing granule file.** The file-map builder warns about a missing file and skips it
  (lines 238-243). `createImage` later calls `imageFile.toPath()` on the null entry of that
  granule (lines 661, 702). The resulting `NullPointerException` is not caught, because only
  `IOException` is (`SceneFirstMissing`).

## Model

| member | source | states |
|---|---|---|
| Geometry.CeilDiv | s2tbx-s2msi-reader/src/main/java/org/esa/s2tbx/dataio/s2/ortho/Sentinel2OrthoProductReader.java:747-750 | the ceiling q of a / d satisfies a <= q·d < a + d |
| Geometry.CeilDivUnique | s2tbx-s2msi-reader/src/main/java/org/esa/s2tbx/dataio/s2/ortho/Sentinel2OrthoProductReader.java:747-750 | the ceiling is the only q with (q-1)·d < a <= q·d |
| Geometry.CeilDivPyramid | s2tbx-s2msi-reader/src/main/java/org/esa/s2tbx/dataio/s2/ortho/Sentinel2OrthoProductReader.java:747-750 | halving level L's size with rounding up gives level L+1's size: ceil(ceil(w/2^L)/2) = ceil(w/2^(L+1)) |
| Geometry.CeilLevelBounds | s2tbx-s2msi-reader/src/main/java/org/esa/s2tbx/dataio/s2/ortho/Sentinel2OrthoProductReader.java:748-750 | the level rectangle, scaled back by 2^level, covers the level-0 rectangle |
| Geometry.CeilLevelBoundsFollowsJ2kRule | s2tbx-s2msi-reader/src/main/java/org/esa/s2tbx/dataio/s2/ortho/Sentinel2OrthoProductReader.java:747-750 | the J2K-rule assumption on the level-bounds function can be met |
| Geometry.SubTilesDisjoint | s2tbx-s2msi-reader/src/main/java/org/esa/s2tbx/dataio/s2/ortho/Sentinel2OrthoProductReader.java:685-689 | the level-0 rectangles of two distinct sub-tiles of a granule do not overlap |
| Geometry.SubTilesCoverGranule | s2tbx-s2msi-reader/src/main/java/org/esa/s2tbx/dataio/s2/ortho/Sentinel2OrthoProductReader.java:674-689 | every pixel of the granule's tile grid lies in the rectangle of sub-tile (px / tileWidth, py / tileHeight) |
| Geometry.DecodeLayout | s2tbx-s2msi-reader/src/main/java/org/esa/s2tbx/dataio/s2/ortho/Sentinel2OrthoProductReader.java:694-701 | on the last row or column both tile sizes become width - x·tileWidth and height - y·tileHeight, and nothing else changes; other sub-tiles keep the layout |
| Geometry.LastColumnWidthFits | s2tbx-s2msi-reader/src/main/java/org/esa/s2tbx/dataio/s2/ortho/Sentinel2OrthoProductReader.java:697-701 | on the last column of a well-formed layout the decoder's tile width is in (0, tileWidth] |
| Geometry.LastRowWidensInnerColumns | s2tbx-s2msi-reader/src/main/java/org/esa/s2tbx/dataio/s2/ortho/Sentinel2OrthoProductReader.java:697-701 | on the last row, an inner column's decoder tile width exceeds tileWidth, because both axes are recomputed |
| Product.BandNames | s2tbx-s2msi-reader/src/main/java/org/esa/s2tbx/dataio/s2/ortho/Sentinel2OrthoProductReader.java:871-891 | the body is the resolution table of getBandNames, which is its own specification; the contract records only that each resolution lists at least one "Bxx" name |
| Product.FirstAtResolution | s2tbx-s2msi-reader/src/main/java/org/esa/s2tbx/dataio/s2/ortho/Sentinel2OrthoProductReader.java:337-344 | the index of the first listed band at the resolution, or none exactly when no band is at it |
| Text.LowerChar | s2tbx-s2msi-reader/src/main/java/org/esa/s2tbx/dataio/s2/ortho/Sentinel2OrthoProductReader.java:383 | an upper-case letter maps to its lower-case letter, anything else to itself |
| Text.UpperChar | s2tbx-s2msi-reader/src/main/java/org/esa/s2tbx/dataio/s2/ortho/Sentinel2OrthoProductReader.java:216 | the result is never a lower-case letter, and a character that is not one is unchanged |
| Text.ToLower | s2tbx-s2msi-reader/src/main/java/org/esa/s2tbx/dataio/s2/ortho/Sentinel2OrthoProductReader.java:383 | same length, character i lower-cased |
| Text.ToLowerIdempotent | s2tbx-s2msi-reader/src/main/java/org/esa/s2tbx/dataio/s2/ortho/Sentinel2OrthoProductReader.java:383 | lower-casing twice is lower-casing once |
| Text.CharCaseAgree | s2tbx-s2msi-reader/src/main/java/org/esa/s2tbx/dataio/s2/ortho/Sentinel2OrthoProductReader.java:216 | two characters are equal ignoring case iff their lower-case forms are equal |
| Text.EqualsIgnoreCaseIsLowerEquality | s2tbx-s2msi-reader/src/main/java/org/esa/s2tbx/dataio/s2/ortho/Sentinel2OrthoProductReader.java:216 | `equalsIgnoreCase` holds iff the lower-cased strings are equal |
| Text.NatDigitsShape | s2tbx-s2msi-reader/src/main/java/org/esa/s2tbx/dataio/s2/ortho/Sentinel2OrthoProductReader.java:234 | `%d` of a natural is a non-empty digit string without a leading zero |
| Text.NatDigitsRoundTrip | s2tbx-s2msi-reader/src/main/java/org/esa/s2tbx/dataio/s2/ortho/Sentinel2OrthoProductReader.java:234 | reading the digits of `%d` back gives the number |
| Text.DecimalInjective | s2tbx-s2msi-reader/src/main/java/org/esa/s2tbx/dataio/s2/ortho/Sentinel2OrthoProductReader.java:474 | two integers with the same `%d` text are equal |
| Text.ReplaceAbsent | s2tbx-s2msi-reader/src/main/java/org/esa/s2tbx/dataio/s2/ortho/Sentinel2OrthoProductReader.java:228-234 | `replace` of a target that does not occur leaves the string unchanged |
| Text.FirstCharAbsent | s2tbx-s2msi-reader/src/main/java/org/esa/s2tbx/dataio/s2/ortho/Sentinel2OrthoProductReader.java:228-234 | a target whose first character is absent from the string does not occur in it |
| Text.ReplaceAtFront | s2tbx-s2msi-reader/src/main/java/org/esa/s2tbx/dataio/s2/ortho/Sentinel2OrthoProductReader.java:228-234 | a single leading occurrence is replaced and the rest kept |
| Text.SplitOn | snap-sta/src/main/java/org/esa/snap/framework/gpf/descriptor/ToolAdapterOperatorDescriptor.java:254 | one piece more than there are separators, and no piece holds the separator |
| Text.JoinSplitOn | snap-sta/src/main/java/org/esa/snap/framework/gpf/descriptor/ToolAdapterOperatorDescriptor.java:254 | joining the pieces of a split with the separator gives the string back |
| Text.SplitOnJoin | snap-sta/src/main/java/org/esa/snap/framework/gpf/descriptor/ToolAdapterOperatorDescriptor.java:254 | splitting separator-free pieces joined with the separator gives the pieces back |
| Text.DropTrailingEmpty | snap-sta/src/main/java/org/esa/snap/framework/gpf/descriptor/ToolAdapterOperatorDescriptor.java:254 | `split` drops exactly the trailing empty tokens: the result is a prefix ending in a non-empty token, and everything dropped is empty |
| Text.DropTrailingEmptyLength | snap-sta/src/main/java/org/esa/snap/framework/gpf/descriptor/ToolAdapterOperatorDescriptor.java:254-256 | more than n tokens survive iff some piece past the n-th is not empty |
| Text.LastIndexOf | snap-sta/src/main/java/org/esa/snap/framework/gpf/descriptor/ToolAdapterOperatorDescriptor.java:255 | the position of the last occurrence with none after it, or -1 exactly when the character is absent |
| Text.LastIndexOfSplits | snap-sta/src/main/java/org/esa/snap/framework/gpf/descriptor/ToolAdapterOperatorDescriptor.java:255-257 | the string is the part before its last separator, the separator, and a separator-free rest |
| SceneMosaic.CropIsCeilOfSceneSize | s2tbx-s2msi-reader/src/main/java/org/esa/s2tbx/dataio/s2/ortho/Sentinel2OrthoProductReader.java:744-754 | under the J2K rule the crop is at (0,0) and ceil(dim / 2^level) in each direction at the band's native resolution |
| SceneMosaic.ColumnSourcesShape | s2tbx-s2msi-reader/src/main/java/org/esa/s2tbx/dataio/s2/ortho/Sentinel2OrthoProductReader.java:675-715 | a column yields one entry per row, row y at index y |
| SceneMosaic.GranuleSourcesLength | s2tbx-s2msi-reader/src/main/java/org/esa/s2tbx/dataio/s2/ortho/Sentinel2OrthoProductReader.java:674-716 | a granule contributes numXTiles·numYTiles entries |
| SceneMosaic.GranuleSourcesEntry | s2tbx-s2msi-reader/src/main/java/org/esa/s2tbx/dataio/s2/ortho/Sentinel2OrthoProductReader.java:674-716 | x outer, y inner: sub-tile (x, y) sits at index x·numYTiles + y |
| SceneMosaic.SceneWithoutSubTiles | s2tbx-s2msi-reader/src/main/java/org/esa/s2tbx/dataio/s2/ortho/Sentinel2OrthoProductReader.java:717-726 | when granules have no sub-tiles nothing is added: null if nothing was collected, else a mosaic of what was |
| SceneMosaic.SceneAllPresent | s2tbx-s2msi-reader/src/main/java/org/esa/s2tbx/dataio/s2/ortho/Sentinel2OrthoProductReader.java:657-756 | when every granule has a file the result is the mosaic of all granules' entries in scene order, cropped to the level bounds |
| SceneMosaic.SceneFirstMissing | s2tbx-s2msi-reader/src/main/java/org/esa/s2tbx/dataio/s2/ortho/Sentinel2OrthoProductReader.java:661-713 | the first granule without a file ends `createImage` with a NullPointerException for that granule |
| SceneMosaic.AllGranulesLength | s2tbx-s2msi-reader/src/main/java/org/esa/s2tbx/dataio/s2/ortho/Sentinel2OrthoProductReader.java:657-716 | n granules give n·numXTiles·numYTiles entries |
| SceneMosaic.AllGranulesEntry | s2tbx-s2msi-reader/src/main/java/org/esa/s2tbx/dataio/s2/ortho/Sentinel2OrthoProductReader.java:657-716 | sub-tile (x, y) of granule g is entry g·numXTiles·numYTiles + x·numYTiles + y |
| SceneMosaic.CreateImageAllPresent | s2tbx-s2msi-reader/src/main/java/org/esa/s2tbx/dataio/s2/ortho/Sentinel2OrthoProductReader.java:654-757 | with every granule present, a mosaic of granules·numXTiles·numYTiles entries cropped to the scene's level bounds |
| SceneMosaic.CreateImageEntry | s2tbx-s2msi-reader/src/main/java/org/esa/s2tbx/dataio/s2/ortho/Sentinel2OrthoProductReader.java:685-714 | each entry is its sub-tile decoded with its own layout and translated to its level position, null, or a constant-0 block of its level size when decoding throws |
| SceneMosaic.ReadColumn | s2tbx-s2msi-reader/src/main/java/org/esa/s2tbx/dataio/s2/ortho/Sentinel2OrthoProductReader.java:675-715 | the inner loop appends exactly the column's entries |
| SceneMosaic.ReadGranule | s2tbx-s2msi-reader/src/main/java/org/esa/s2tbx/dataio/s2/ortho/Sentinel2OrthoProductReader.java:674-716 | the outer loop appends exactly the granule's entries |
| SceneMosaic.CreateImage | s2tbx-s2msi-reader/src/main/java/org/esa/s2tbx/dataio/s2/ortho/Sentinel2OrthoProductReader.java:654-757 | the granule loop yields the result the specification function describes (null, fault, or cropped mosaic) |
| AngleGrids.At | s2tbx-s2msi-reader/src/main/java/org/esa/s2tbx/dataio/s2/ortho/Sentinel2OrthoProductReader.java:535-536 | the sample where (y, x) is inside the ragged grid, NaN elsewhere |
| AngleGrids.Row | s2tbx-s2msi-reader/src/main/java/org/esa/s2tbx/dataio/s2/ortho/Sentinel2OrthoProductReader.java:529-532 | a row of w samples, sample x at index x |
| AngleGrids.RasterLength | s2tbx-s2msi-reader/src/main/java/org/esa/s2tbx/dataio/s2/ortho/Sentinel2OrthoProductReader.java:520-523 | each raster holds gridWidth·gridHeight samples |
| AngleGrids.RasterEntry | s2tbx-s2msi-reader/src/main/java/org/esa/s2tbx/dataio/s2/ortho/Sentinel2OrthoProductReader.java:528-530 | sample (y, x) sits at index y·gridWidth + x |
| AngleGrids.ViewZenithLastWins | s2tbx-s2msi-reader/src/main/java/org/esa/s2tbx/dataio/s2/ortho/Sentinel2OrthoProductReader.java:533-541 | the viewing zenith is that of the last detector grid with a finite in-range zenith |
| AngleGrids.ViewZenithNoneUsable | s2tbx-s2msi-reader/src/main/java/org/esa/s2tbx/dataio/s2/ortho/Sentinel2OrthoProductReader.java:533-541 | with no usable grid the initial value stays |
| AngleGrids.ViewZenithNaNIffNoneUsable | s2tbx-s2msi-reader/src/main/java/org/esa/s2tbx/dataio/s2/ortho/Sentinel2OrthoProductReader.java:524-541 | the merged zenith is NaN iff no grid has a finite in-range zenith, and is never infinite |
| AngleGrids.LastUsable | s2tbx-s2msi-reader/src/main/java/org/esa/s2tbx/dataio/s2/ortho/Sentinel2OrthoProductReader.java:533-549 | the index of a usable grid with no usable grid after it |
| AngleGrids.ViewAzimuthLastWins | s2tbx-s2msi-reader/src/main/java/org/esa/s2tbx/dataio/s2/ortho/Sentinel2OrthoProductReader.java:543-549 | the viewing azimuth is that of the last grid passing the azimuth test |
| AngleGrids.ViewAzimuthNoneUsable | s2tbx-s2msi-reader/src/main/java/org/esa/s2tbx/dataio/s2/ortho/Sentinel2OrthoProductReader.java:543-549 | with no grid passing the azimuth test the initial value stays |
| AngleGrids.ViewAzimuthNaNIffNoneUsable | s2tbx-s2msi-reader/src/main/java/org/esa/s2tbx/dataio/s2/ortho/Sentinel2OrthoProductReader.java:525-549 | the merged azimuth is NaN iff no grid passes the azimuth test |
| AngleGrids.AzimuthTestChecksZenith | s2tbx-s2msi-reader/src/main/java/org/esa/s2tbx/dataio/s2/ortho/Sentinel2OrthoProductReader.java:545 | an infinite azimuth with a finite zenith is kept; a finite azimuth with an infinite zenith is dropped |
| AngleGrids.TileGridsSample | s2tbx-s2msi-reader/src/main/java/org/esa/s2tbx/dataio/s2/ortho/Sentinel2OrthoProductReader.java:518-563 | four rasters of the sun grid's size; at index y·w + x the sun samples are copied and the viewing samples merged |
| AngleGrids.TileGridsOutcomes | s2tbx-s2msi-reader/src/main/java/org/esa/s2tbx/dataio/s2/ortho/Sentinel2OrthoProductReader.java:513-566 | null exactly without a sun grid; grids of the sun grid's size; an exception exactly for a null tile, an empty sun grid, a short sun row or a null viewing array |
| AngleGrids.MergeViewingAt | s2tbx-s2msi-reader/src/main/java/org/esa/s2tbx/dataio/s2/ortho/Sentinel2OrthoProductReader.java:533-555 | the detector loop at one sample computes the merged zenith and azimuth |
| AngleGrids.FillSample | s2tbx-s2msi-reader/src/main/java/org/esa/s2tbx/dataio/s2/ortho/Sentinel2OrthoProductReader.java:529-556 | one inner-loop pass writes exactly index y·w + x of the four rasters, or reports the exception of a short sun row or a null viewing array |
| AngleGrids.FillRow | s2tbx-s2msi-reader/src/main/java/org/esa/s2tbx/dataio/s2/ortho/Sentinel2OrthoProductReader.java:529-556 | the x loop fills row y of the four rasters, or fails exactly when an access throws |
| AngleGrids.FillRows | s2tbx-s2msi-reader/src/main/java/org/esa/s2tbx/dataio/s2/ortho/Sentinel2OrthoProductReader.java:528-557 | the y loop fills the four rasters as specified, or fails exactly when the rows are not empty and a sun row is short or the viewing array is null |
| AngleGrids.CreateTileTiePointGrids | s2tbx-s2msi-reader/src/main/java/org/esa/s2tbx/dataio/s2/ortho/Sentinel2OrthoProductReader.java:513-566 | the loops compute the specified grids, null or exception |
| TiePointSource.TiePointGridSource.constructor | s2tbx-s2msi-reader/src/main/java/org/esa/s2tbx/dataio/s2/ortho/Sentinel2OrthoProductReader.java:774-779 | the fields are set and the cache starts empty |
| TiePointSource.TiePointGridSource.CreateL1cTileImage | s2tbx-s2msi-reader/src/main/java/org/esa/s2tbx/dataio/s2/ortho/Sentinel2OrthoProductReader.java:781-796 | a cached tile is served without recomputation; otherwise the grids are computed once and cached only if not null; the image is the grid index's image in every case; the cache invariant holds |
| TiePointSource.TiePointGridSource.MosaicFromNoFault | s2tbx-s2msi-reader/src/main/java/org/esa/s2tbx/dataio/s2/ortho/Sentinel2OrthoProductReader.java:799-865 | without exceptions, one translated entry per tile in scene order, cropped to the level bounds of the product-resolution scene |
| TiePointSource.TiePointGridSource.MosaicFromShape | s2tbx-s2msi-reader/src/main/java/org/esa/s2tbx/dataio/s2/ortho/Sentinel2OrthoProductReader.java:799-865 | without exceptions the result is a mosaic cropped to the product-resolution level bounds, keeping the entries gathered so far and adding one per tile |
| TiePointSource.TiePointGridSource.MosaicFromEntry | s2tbx-s2msi-reader/src/main/java/org/esa/s2tbx/dataio/s2/ortho/Sentinel2OrthoProductReader.java:814-821 | without exceptions tile i becomes the i-th entry after those gathered so far: its image translated to its level position |
| TiePointSource.TiePointGridSource.MosaicFromFirstFault | s2tbx-s2msi-reader/src/main/java/org/esa/s2tbx/dataio/s2/ortho/Sentinel2OrthoProductReader.java:802-808 | the first tile whose grids throw a non-IO exception makes `createImage` throw |
| TiePointSource.TiePointGridSource.CropFollowsJ2kRule | s2tbx-s2msi-reader/src/main/java/org/esa/s2tbx/dataio/s2/ortho/Sentinel2OrthoProductReader.java:854-863 | under the J2K rule the tie-point crop is at (0,0) and ceil(dim / 2^level) at the product resolution |
| TiePointSource.TiePointGridSource.VisitTile | s2tbx-s2msi-reader/src/main/java/org/esa/s2tbx/dataio/s2/ortho/Sentinel2OrthoProductReader.java:802-828 | one pass of the tile loop appends the tile's translated image or ends in its exception, advancing the cache and the computations by that tile |
| TiePointSource.TiePointGridSource.CreateImage | s2tbx-s2msi-reader/src/main/java/org/esa/s2tbx/dataio/s2/ortho/Sentinel2OrthoProductReader.java:799-866 | the tile loop yields the specified mosaic; the cache keeps every tile it held and ends as CachedAfter, and the grids computed are ComputedAfter: the visited tiles not cached at their visit, in scene order, up to the first exception |
| TiePointSource.TiePointGridSource.CachedAfterGrows | s2tbx-s2msi-reader/src/main/java/org/esa/s2tbx/dataio/s2/ortho/Sentinel2OrthoProductReader.java:781-796 | the cache only grows, and only by computed tiles whose grids are not null |
| TiePointSource.TiePointGridSource.CachedAfterHolds | s2tbx-s2msi-reader/src/main/java/org/esa/s2tbx/dataio/s2/ortho/Sentinel2OrthoProductReader.java:781-822 | every tile with grids reached before the first exception is cached afterwards, so a later createImage does not compute it again |
| BandFiles.FilterTiles | s2tbx-s2msi-reader/src/main/java/org/esa/s2tbx/dataio/s2/ortho/Sentinel2OrthoProductReader.java:214-217 | outside granule mode all tiles; in granule mode exactly the tiles whose id equals the filter ignoring case |
| BandFiles.FilterTilesSingle | s2tbx-s2msi-reader/src/main/java/org/esa/s2tbx/dataio/s2/ortho/Sentinel2OrthoProductReader.java:214-217 | one tile is kept exactly when granule mode is off or its id equals the filter ignoring case |
| BandFiles.FilterTilesAppend | s2tbx-s2msi-reader/src/main/java/org/esa/s2tbx/dataio/s2/ortho/Sentinel2OrthoProductReader.java:214-217 | filtering a concatenation is the concatenation of the filtered parts, so kept tiles keep their scene order and repeats |
| BandFiles.TemplateWithoutPlaceholders | s2tbx-s2msi-reader/src/main/java/org/esa/s2tbx/dataio/s2/ortho/Sentinel2OrthoProductReader.java:228-234 | a template without '{' is used unchanged |
| BandFiles.ImageFile | s2tbx-s2msi-reader/src/main/java/org/esa/s2tbx/dataio/s2/ortho/Sentinel2OrthoProductReader.java:226-238 | the file lies in the granule directory productDir/GRANULE/<tile id>/, and a template without placeholders is the file name unchanged |
| BandFiles.TileFileMapContents | s2tbx-s2msi-reader/src/main/java/org/esa/s2tbx/dataio/s2/ortho/Sentinel2OrthoProductReader.java:221-245 | a tile is in the map iff its directory name parses and its image file exists, and it maps to that file |
| BandFiles.BandInfoList | s2tbx-s2msi-reader/src/main/java/org/esa/s2tbx/dataio/s2/ortho/Sentinel2OrthoProductReader.java:220-253 | no more entries than bands |
| BandFiles.BandInfoListMembership | s2tbx-s2msi-reader/src/main/java/org/esa/s2tbx/dataio/s2/ortho/Sentinel2OrthoProductReader.java:247-252 | a band is kept iff its file map is not empty, with its own map and layout |
| BandFiles.BandInfoListAppend | s2tbx-s2msi-reader/src/main/java/org/esa/s2tbx/dataio/s2/ortho/Sentinel2OrthoProductReader.java:220-253 | the list of concatenated bands is the concatenation of the lists |
| BandFiles.BandInfoListPosition | s2tbx-s2msi-reader/src/main/java/org/esa/s2tbx/dataio/s2/ortho/Sentinel2OrthoProductReader.java:247-252 | a kept band sits right after the kept bands before it |
| BandFiles.BandInfoListOrder | s2tbx-s2msi-reader/src/main/java/org/esa/s2tbx/dataio/s2/ortho/Sentinel2OrthoProductReader.java:247-252 | kept bands keep their relative order |
| BandFiles.FindTileFile | s2tbx-s2msi-reader/src/main/java/org/esa/s2tbx/dataio/s2/ortho/Sentinel2OrthoProductReader.java:223-244 | one tile's lookup yields the specified file or none |
| BandFiles.BuildTileFileMap | s2tbx-s2msi-reader/src/main/java/org/esa/s2tbx/dataio/s2/ortho/Sentinel2OrthoProductReader.java:221-245 | the tile loop builds exactly the specified map |
| BandFiles.BuildBandInfoList | s2tbx-s2msi-reader/src/main/java/org/esa/s2tbx/dataio/s2/ortho/Sentinel2OrthoProductReader.java:220-253 | the band loop builds exactly the specified list |
| BandFiles.BandInfosOfProduct | s2tbx-s2msi-reader/src/main/java/org/esa/s2tbx/dataio/s2/ortho/Sentinel2OrthoProductReader.java:212-253 | the band list is built over the filtered tiles |
| Rescale.NoBandsMessage | s2tbx-s2msi-reader/src/main/java/org/esa/s2tbx/dataio/s2/ortho/Sentinel2OrthoProductReader.java:347-350 | the message starts "Products with no bands at <res>" |
| Rescale.FindBand | s2tbx-s2msi-reader/src/main/java/org/esa/s2tbx/dataio/s2/ortho/Sentinel2OrthoProductReader.java:340 | the first band with that name, or none exactly when no band has it |
| Rescale.RescaleAll | s2tbx-s2msi-reader/src/main/java/org/esa/s2tbx/dataio/s2/ortho/Sentinel2OrthoProductReader.java:352-371 | as many bands as before |
| Rescale.RescaleAllEntry | s2tbx-s2msi-reader/src/main/java/org/esa/s2tbx/dataio/s2/ortho/Sentinel2OrthoProductReader.java:352-371 | every band keeps its name and place; a band at scene size is unchanged; any other is rescaled onto the target |
| Rescale.RescaleAllReachesSceneSize | s2tbx-s2msi-reader/src/main/java/org/esa/s2tbx/dataio/s2/ortho/Sentinel2OrthoProductReader.java:352-371 | with a target at scene size every band ends at scene size |
| Rescale.RescaleAllIdempotent | s2tbx-s2msi-reader/src/main/java/org/esa/s2tbx/dataio/s2/ortho/Sentinel2OrthoProductReader.java:352-371 | rescaling twice onto such a target changes nothing more |
| Rescale.ScaleBandsOutcomes | s2tbx-s2msi-reader/src/main/java/org/esa/s2tbx/dataio/s2/ortho/Sentinel2OrthoProductReader.java:329-372 | multi-resolution changes nothing; otherwise IOException with the message iff no band is at the product resolution, else rescaling onto the first such band's image |
| Rescale.ScaleBandsIdempotent | s2tbx-s2msi-reader/src/main/java/org/esa/s2tbx/dataio/s2/ortho/Sentinel2OrthoProductReader.java:329-372 | with a reference at scene size, running `scaleBands` again changes nothing |
| Rescale.FindBandByNames | s2tbx-s2msi-reader/src/main/java/org/esa/s2tbx/dataio/s2/ortho/Sentinel2OrthoProductReader.java:340 | `getBand` depends only on the band names: lists with the same names find the same position |
| Rescale.ReferenceImage | s2tbx-s2msi-reader/src/main/java/org/esa/s2tbx/dataio/s2/ortho/Sentinel2OrthoProductReader.java:337-345 | the reference loop finds the image of the band named like the first listed band at the product resolution, none when no band is at it, and a null dereference when the product lacks that band |
| Rescale.RescaleBands | s2tbx-s2msi-reader/src/main/java/org/esa/s2tbx/dataio/s2/ortho/Sentinel2OrthoProductReader.java:352-371 | the rescale loop computes exactly the rescaled band list |
| Rescale.ScaleBands | s2tbx-s2msi-reader/src/main/java/org/esa/s2tbx/dataio/s2/ortho/Sentinel2OrthoProductReader.java:329-372 | the reference loop and the rescale loop compute the specified outcome |
| Masks.IndexMask | s2tbx-s2msi-reader/src/main/java/org/esa/s2tbx/dataio/s2/ortho/Sentinel2OrthoProductReader.java:383-384 | a scene-size band-maths mask named "scl_" + the index name, half transparent, with the iterator's colour |
| Masks.CodingMasks | s2tbx-s2msi-reader/src/main/java/org/esa/s2tbx/dataio/s2/ortho/Sentinel2OrthoProductReader.java:380-386 | one mask per index name |
| Masks.IndexCodings | s2tbx-s2msi-reader/src/main/java/org/esa/s2tbx/dataio/s2/ortho/Sentinel2OrthoProductReader.java:379 | at most one coding per band |
| Masks.IndexMasksShape | s2tbx-s2msi-reader/src/main/java/org/esa/s2tbx/dataio/s2/ortho/Sentinel2OrthoProductReader.java:374-389 | one mask per coded value of all index bands, each "scl_..." at scene size and half transparency, with consecutive colours |
| Masks.IndexCountsAppend | s2tbx-s2msi-reader/src/main/java/org/esa/s2tbx/dataio/s2/ortho/Sentinel2OrthoProductReader.java:375-388 | the coded values and the codings of concatenated lists are those of the parts |
| Masks.IndexMasksAppend | s2tbx-s2msi-reader/src/main/java/org/esa/s2tbx/dataio/s2/ortho/Sentinel2OrthoProductReader.java:375-388 | the masks of concatenated lists are the first part's, then the second's with colours continuing |
| Masks.IndexMasksHead | s2tbx-s2msi-reader/src/main/java/org/esa/s2tbx/dataio/s2/ortho/Sentinel2OrthoProductReader.java:376-386 | a leading index band's masks come first, one per coded value |
| Masks.IndexMasksEntry | s2tbx-s2msi-reader/src/main/java/org/esa/s2tbx/dataio/s2/ortho/Sentinel2OrthoProductReader.java:380-385 | value e of index band k gets a mask named "scl_" + lower-cased name with expression "<band>.raw == <value>", after the masks of the bands before it |
| Masks.AddCodingMasks | s2tbx-s2msi-reader/src/main/java/org/esa/s2tbx/dataio/s2/ortho/Sentinel2OrthoProductReader.java:380-386 | the index-name loop appends the coding's masks and advances the colour by their number |
| Masks.AddIndexMasks | s2tbx-s2msi-reader/src/main/java/org/esa/s2tbx/dataio/s2/ortho/Sentinel2OrthoProductReader.java:374-389 | the band loop appends exactly the specified masks and codings and advances the colour by the number of coded values |
| Masks.OfSubType | s2tbx-s2msi-reader/src/main/java/org/esa/s2tbx/dataio/s2/ortho/Sentinel2OrthoProductReader.java:434 | exactly the polygons of the subtype are kept |
| Masks.FilePolygonsMembership | s2tbx-s2msi-reader/src/main/java/org/esa/s2tbx/dataio/s2/ortho/Sentinel2OrthoProductReader.java:415-438 | a polygon is kept iff it is of the subtype and comes from a file of the main type (and of the band, for a band-specific mask) |
| Masks.ProductPolygonsMembership | s2tbx-s2msi-reader/src/main/java/org/esa/s2tbx/dataio/s2/ortho/Sentinel2OrthoProductReader.java:414-439 | a product polygon is one some granule contributes, and every such polygon is kept |
| Masks.Features | s2tbx-s2msi-reader/src/main/java/org/esa/s2tbx/dataio/s2/ortho/Sentinel2OrthoProductReader.java:446-452 | one feature per polygon, in polygon order |
| Masks.FeatureIdsDistinct | s2tbx-s2msi-reader/src/main/java/org/esa/s2tbx/dataio/s2/ortho/Sentinel2OrthoProductReader.java:450 | the feature ids are pairwise distinct |
| Masks.ResolutionMasks | s2tbx-s2msi-reader/src/main/java/org/esa/s2tbx/dataio/s2/ortho/Sentinel2OrthoProductReader.java:454-484 | at most one version per resolution |
| Masks.ResolutionMaskNamesDistinct | s2tbx-s2msi-reader/src/main/java/org/esa/s2tbx/dataio/s2/ortho/Sentinel2OrthoProductReader.java:474 | the "<snapName>_<res>m" names of two resolutions differ |
| Masks.ResolutionMasksFor | s2tbx-s2msi-reader/src/main/java/org/esa/s2tbx/dataio/s2/ortho/Sentinel2OrthoProductReader.java:457-483 | a version named "<snapName>_<res>m" exists iff some band is at res; it refers to the first such band and holds the whole collection |
| Masks.ResolutionMasksOther | s2tbx-s2msi-reader/src/main/java/org/esa/s2tbx/dataio/s2/ortho/Sentinel2OrthoProductReader.java:457-483 | no version is produced for a resolution that is not visited |
| Masks.GatherFilePolygons | s2tbx-s2msi-reader/src/main/java/org/esa/s2tbx/dataio/s2/ortho/Sentinel2OrthoProductReader.java:415-438 | the mask-file loop appends exactly the granule's selected polygons |
| Masks.GatherPolygons | s2tbx-s2msi-reader/src/main/java/org/esa/s2tbx/dataio/s2/ortho/Sentinel2OrthoProductReader.java:412-439 | the tile loop builds exactly the product polygons, in tile order |
| Masks.BuildFeatures | s2tbx-s2msi-reader/src/main/java/org/esa/s2tbx/dataio/s2/ortho/Sentinel2OrthoProductReader.java:446-452 | the loop builds exactly the features |
| Masks.ReferenceBandAt | s2tbx-s2msi-reader/src/main/java/org/esa/s2tbx/dataio/s2/ortho/Sentinel2OrthoProductReader.java:458-465 | the physical band of the first listed band at the resolution, or none exactly when there is none |
| Masks.AddResolutionVersions | s2tbx-s2msi-reader/src/main/java/org/esa/s2tbx/dataio/s2/ortho/Sentinel2OrthoProductReader.java:457-483 | the resolution loop adds exactly the specified versions |
| Masks.AddVectorMask | s2tbx-s2msi-reader/src/main/java/org/esa/s2tbx/dataio/s2/ortho/Sentinel2OrthoProductReader.java:411-500 | the polygon, feature and resolution loops of `addVectorMask` compute exactly the specified masks: per-resolution versions, or one band-specific mask |
| Masks.SpectralBands | s2tbx-s2msi-reader/src/main/java/org/esa/s2tbx/dataio/s2/ortho/Sentinel2OrthoProductReader.java:402-406 | no more spectral bands than listed bands |
| Masks.PerBandMasksShape | s2tbx-s2msi-reader/src/main/java/org/esa/s2tbx/dataio/s2/ortho/Sentinel2OrthoProductReader.java:485-499 | a per-band kind yields one mask per spectral band, in order, named and described for it and holding that band's polygons |
| Masks.SpectralBandsMembership | s2tbx-s2msi-reader/src/main/java/org/esa/s2tbx/dataio/s2/ortho/Sentinel2OrthoProductReader.java:402-406 | the bands handed over are exactly the spectral bands of the list |
| Masks.VectorMasksAbsentKinds | s2tbx-s2msi-reader/src/main/java/org/esa/s2tbx/dataio/s2/ortho/Sentinel2OrthoProductReader.java:392-394 | kinds absent at the mask level add no mask |
| Masks.AddPerBandMasks | s2tbx-s2msi-reader/src/main/java/org/esa/s2tbx/dataio/s2/ortho/Sentinel2OrthoProductReader.java:402-406 | the band loop appends exactly the per-band masks |
| Masks.AddKindMasks | s2tbx-s2msi-reader/src/main/java/org/esa/s2tbx/dataio/s2/ortho/Sentinel2OrthoProductReader.java:393-407 | one kind's pass appends exactly its masks |
| Masks.AddVectorMasks | s2tbx-s2msi-reader/src/main/java/org/esa/s2tbx/dataio/s2/ortho/Sentinel2OrthoProductReader.java:391-409 | the kind loop appends exactly the masks of all kinds, in kind order |
| GranuleImageFilename.Format | s2tbx-l1c-reader/src/main/java/org/esa/s2tbx/dataio/s2/filepatterns/S2L1CGranuleImageFilename.java:33 | well-formed groups spell a name of 59 characters plus the extension |
| GranuleImageFilename.Create | s2tbx-l1c-reader/src/main/java/org/esa/s2tbx/dataio/s2/filepatterns/S2L1CGranuleImageFilename.java:60-83 | non-null iff `isImageFilename`; the name is kept verbatim and the groups are well formed |
| GranuleImageFilename.MatchLength | s2tbx-l1c-reader/src/main/java/org/esa/s2tbx/dataio/s2/filepatterns/S2L1CGranuleImageFilename.java:33 | a match has length 59, 63 or 64, and 59 exactly when there is no extension |
| GranuleImageFilename.MissionOfMatch | s2tbx-l1c-reader/src/main/java/org/esa/s2tbx/dataio/s2/filepatterns/S2L1CGranuleImageFilename.java:33 | group 1 is "S2A", "S2B" or "S2_", the first three characters |
| GranuleImageFilename.PositionalFields | s2tbx-l1c-reader/src/main/java/org/esa/s2tbx/dataio/s2/filepatterns/S2L1CGranuleImageFilename.java:68-78 | the "_A", "_T" and "_B" groups and the extension land in instanceID, absoluteOrbit, tileNumber and bandIndex, markers included |
| GranuleImageFilename.FormatCreate | s2tbx-l1c-reader/src/main/java/org/esa/s2tbx/dataio/s2/filepatterns/S2L1CGranuleImageFilename.java:65-78 | the groups of a match spell the name back |
| GranuleImageFilename.CreateFormat | s2tbx-l1c-reader/src/main/java/org/esa/s2tbx/dataio/s2/filepatterns/S2L1CGranuleImageFilename.java:65-78 | well-formed groups are recovered from the name they spell |
| GranuleImageFilename.BarIsAccepted | s2tbx-l1c-reader/src/main/java/org/esa/s2tbx/dataio/s2/filepatterns/S2L1CGranuleImageFilename.java:33 | a name with a vertical bar in the class-coded fields is accepted and its groups read back |
| OperatorDescriptor.NonNullCopies | snap-sta/src/main/java/org/esa/snap/framework/gpf/descriptor/ToolAdapterOperatorDescriptor.java:121-126 | the copies contain no null and are no more than the originals |
| OperatorDescriptor.NonNullCopiesMembership | snap-sta/src/main/java/org/esa/snap/framework/gpf/descriptor/ToolAdapterOperatorDescriptor.java:123-125 | exactly the non-null variables are copied |
| OperatorDescriptor.NonNullCopiesAppend | snap-sta/src/main/java/org/esa/snap/framework/gpf/descriptor/ToolAdapterOperatorDescriptor.java:121-126 | copying keeps the order |
| OperatorDescriptor.NonNullCopiesIdempotent | snap-sta/src/main/java/org/esa/snap/framework/gpf/descriptor/ToolAdapterOperatorDescriptor.java:121-126 | a list without null is copied whole, and copying twice is copying once |
| OperatorDescriptor.IndexOf | snap-sta/src/main/java/org/esa/snap/framework/gpf/descriptor/ToolAdapterOperatorDescriptor.java:159-161 | the first position of an equal element, or none exactly when absent |
| OperatorDescriptor.RemoveFirstSpec | snap-sta/src/main/java/org/esa/snap/framework/gpf/descriptor/ToolAdapterOperatorDescriptor.java:159-161 | `remove` takes out only the first equal element and keeps the order; an absent element leaves the list |
| OperatorDescriptor.MenuGroupEntry | snap-sta/src/main/java/org/esa/snap/framework/gpf/descriptor/ToolAdapterOperatorDescriptor.java:251-279 | when split, group + "/" + entry is the location and the entry has no '/'; otherwise both are the location |
| OperatorDescriptor.SplitsMenuCondition | snap-sta/src/main/java/org/esa/snap/framework/gpf/descriptor/ToolAdapterOperatorDescriptor.java:254-256 | the split applies iff the last '/' is past position 0 and a piece after the second '/' is not empty |
| OperatorDescriptor.XmlDescriptorError | snap-sta/src/main/java/org/esa/snap/framework/gpf/descriptor/ToolAdapterOperatorDescriptor.java:447-461 | no error iff the read succeeded with a non-empty name and alias; a missing name gives the "missing 'name' element" message |
| OperatorDescriptor.CopyArray | snap-sta/src/main/java/org/esa/snap/framework/gpf/descriptor/ToolAdapterOperatorDescriptor.java:128-131 | the element loop copies the array exactly |
| OperatorDescriptor.Attributes.IsInternal | snap-sta/src/main/java/org/esa/snap/framework/gpf/descriptor/ToolAdapterOperatorDescriptor.java:217-220 | true iff the flag is set to true; null reads as false |
| OperatorDescriptor.Attributes.IsAutoWriteDisabled | snap-sta/src/main/java/org/esa/snap/framework/gpf/descriptor/ToolAdapterOperatorDescriptor.java:222-225 | true iff the flag is set to true; null reads as false |
| OperatorDescriptor.Attributes.GetOperatorClass | snap-sta/src/main/java/org/esa/snap/framework/gpf/descriptor/ToolAdapterOperatorDescriptor.java:287-290 | `Operator` when unset, else the class |
| OperatorDescriptor.Attributes.GetMenuGroup | snap-sta/src/main/java/org/esa/snap/framework/gpf/descriptor/ToolAdapterOperatorDescriptor.java:251-263 | null iff the location is null; otherwise a prefix of the location |
| OperatorDescriptor.Attributes.GetMenuEntry | snap-sta/src/main/java/org/esa/snap/framework/gpf/descriptor/ToolAdapterOperatorDescriptor.java:265-279 | the alias when the location is null; otherwise non-null and no longer than the location |
| OperatorDescriptor.Attributes.ThroughGetters | snap-sta/src/main/java/org/esa/snap/framework/gpf/descriptor/ToolAdapterOperatorDescriptor.java:106-108 | the copied attributes have the flags and class set, read the same through the getters, and keep the other fields |
| OperatorDescriptor.ThroughGettersIdempotent | snap-sta/src/main/java/org/esa/snap/framework/gpf/descriptor/ToolAdapterOperatorDescriptor.java:106-108 | copying a copy's attributes changes nothing |
| OperatorDescriptor.ToolAdapterOperatorDescriptor.constructor | snap-sta/src/main/java/org/esa/snap/framework/gpf/descriptor/ToolAdapterOperatorDescriptor.java:75-86 | one source-product descriptor with the tool's source-product id, empty variable and parameter lists, default tool settings, no attributes |
| OperatorDescriptor.ToolAdapterOperatorDescriptor.Named | snap-sta/src/main/java/org/esa/snap/framework/gpf/descriptor/ToolAdapterOperatorDescriptor.java:88-92 | the initial state with the name and the operator class |
| OperatorDescriptor.ToolAdapterOperatorDescriptor.Described | snap-sta/src/main/java/org/esa/snap/framework/gpf/descriptor/ToolAdapterOperatorDescriptor.java:94-103 | the initial state with every descriptive field; the flags stay unset |
| OperatorDescriptor.ToolAdapterOperatorDescriptor.SetName | snap-sta/src/main/java/org/esa/snap/framework/gpf/descriptor/ToolAdapterOperatorDescriptor.java:194-196 | only the name changes |
| OperatorDescriptor.ToolAdapterOperatorDescriptor.SetAlias | snap-sta/src/main/java/org/esa/snap/framework/gpf/descriptor/ToolAdapterOperatorDescriptor.java:170-172 | only the alias changes |
| OperatorDescriptor.ToolAdapterOperatorDescriptor.SetMenuLocation | snap-sta/src/main/java/org/esa/snap/framework/gpf/descriptor/ToolAdapterOperatorDescriptor.java:249 | only the menu location changes |
| OperatorDescriptor.ToolAdapterOperatorDescriptor.SetSystem | snap-sta/src/main/java/org/esa/snap/framework/gpf/descriptor/ToolAdapterOperatorDescriptor.java:281-283 | only the system flag changes |
| OperatorDescriptor.ToolAdapterOperatorDescriptor.GetSourceProductDescriptors | snap-sta/src/main/java/org/esa/snap/framework/gpf/descriptor/ToolAdapterOperatorDescriptor.java:292-295 | empty when unset, else the array |
| OperatorDescriptor.ToolAdapterOperatorDescriptor.GetTargetPropertyDescriptors | snap-sta/src/main/java/org/esa/snap/framework/gpf/descriptor/ToolAdapterOperatorDescriptor.java:309-312 | empty when unset, else the array |
| OperatorDescriptor.ToolAdapterOperatorDescriptor.GetVariables | snap-sta/src/main/java/org/esa/snap/framework/gpf/descriptor/ToolAdapterOperatorDescriptor.java:383-388 | never null: a null list is replaced by an empty one, which is then stored |
| OperatorDescriptor.ToolAdapterOperatorDescriptor.GetToolParameterDescriptors | snap-sta/src/main/java/org/esa/snap/framework/gpf/descriptor/ToolAdapterOperatorDescriptor.java:163-168 | never null: a null list is replaced by an empty one, which is then stored |
| OperatorDescriptor.ToolAdapterOperatorDescriptor.GetParameterDescriptors | snap-sta/src/main/java/org/esa/snap/framework/gpf/descriptor/ToolAdapterOperatorDescriptor.java:302-307 | the tool parameter descriptors, through their getter |
| OperatorDescriptor.ToolAdapterOperatorDescriptor.AddVariable | snap-sta/src/main/java/org/esa/snap/framework/gpf/descriptor/ToolAdapterOperatorDescriptor.java:390-392 | appends at the end; a null list is a NullPointerException and nothing changes |
| OperatorDescriptor.ToolAdapterOperatorDescriptor.RemoveParamDescriptor | snap-sta/src/main/java/org/esa/snap/framework/gpf/descriptor/ToolAdapterOperatorDescriptor.java:159-161 | removes the first equal descriptor only; a null list is a NullPointerException |
| OperatorDescriptor.ToolAdapterOperatorDescriptor.CopyFrom | snap-sta/src/main/java/org/esa/snap/framework/gpf/descriptor/ToolAdapterOperatorDescriptor.java:105-145 | attributes through the getters, settings as they are, arrays copied, each parameter descriptor copied in order, non-null variables copied once |
| OperatorDescriptor.ToolAdapterOperatorDescriptor.Copy | snap-sta/src/main/java/org/esa/snap/framework/gpf/descriptor/ToolAdapterOperatorDescriptor.java:105-145 | the copy constructor's resulting state, as for `CopyFrom` |
| OperatorDescriptor.ToolAdapterOperatorDescriptor.CopyRenamed | snap-sta/src/main/java/org/esa/snap/framework/gpf/descriptor/ToolAdapterOperatorDescriptor.java:147-157 | the copy under the new name and alias, with the non-null variables copied twice |
| OperatorDescriptor.ToolAdapterOperatorDescriptor.CreateCopy | snap-sta/src/main/java/org/esa/snap/framework/gpf/descriptor/ToolAdapterOperatorDescriptor.java:394-396 | a fresh copy under the same name and alias whose variables are the non-null ones twice |
| OperatorDescriptor.ToolAdapterOperatorDescriptor.Unmarshal | snap-sta/src/main/java/org/esa/snap/framework/gpf/descriptor/ToolAdapterOperatorDescriptor.java:450 | on a freshly constructed descriptor, every field the document has an element for takes its value and every other field keeps the constructor value |
| OperatorDescriptor.ToolAdapterOperatorDescriptor.FromXml | snap-sta/src/main/java/org/esa/snap/framework/gpf/descriptor/ToolAdapterOperatorDescriptor.java:447-461 | an error exactly when the read failed or the name or alias is null or empty, with the matching message; otherwise a fresh descriptor holding every element of the document and the constructor's value for each field the document lacks |
| OperatorDescriptor.ToolAdapterOperatorDescriptor.EmptyDocumentIsInitial | snap-sta/src/main/java/org/esa/snap/framework/gpf/descriptor/ToolAdapterOperatorDescriptor.java:75-86 | unmarshalling a document with no elements leaves exactly the state of the no-argument constructor |
| ParameterDescriptor.TypeOf | s2tbx-tooladapter/src/main/java/org/esa/s2tbx/framework/gpf/descriptor/ToolParameterDescriptor.java:79-84 | an unset type reads as the regular mask, a set one as itself |
| ParameterDescriptor.ClassificationsExclusive | s2tbx-tooladapter/src/main/java/org/esa/s2tbx/framework/gpf/descriptor/ToolParameterDescriptor.java:86-100 | at most one classification holds, and exactly one unless the type is some other text |
| ParameterDescriptor.UnsetIsParameter | s2tbx-tooladapter/src/main/java/org/esa/s2tbx/framework/gpf/descriptor/ToolParameterDescriptor.java:79-100 | an unset type is a regular parameter and nothing else |
| ParameterDescriptor.GetParameterTypeTwice | s2tbx-tooladapter/src/main/java/org/esa/s2tbx/framework/gpf/descriptor/ToolParameterDescriptor.java:79-84 | two reads give the same type and leave the field set |
| ParameterDescriptor.SetThenGet | s2tbx-tooladapter/src/main/java/org/esa/s2tbx/framework/gpf/descriptor/ToolParameterDescriptor.java:79-104 | setting t then reading gives t, or the regular mask for null |
| ParameterDescriptor.Classify | s2tbx-tooladapter/src/main/java/org/esa/s2tbx/framework/gpf/descriptor/ToolParameterDescriptor.java:86-100 | no two predicates answer true, and exactly one does for one of the four masks |
| ParameterDescriptor.ToolParameterDescriptor.EffectiveType | s2tbx-tooladapter/src/main/java/org/esa/s2tbx/framework/gpf/descriptor/ToolParameterDescriptor.java:79-84 | the field's type, or the regular mask when it is null |
| ParameterDescriptor.ToolParameterDescriptor.constructor | s2tbx-tooladapter/src/main/java/org/esa/s2tbx/framework/gpf/descriptor/ToolParameterDescriptor.java:14-18 | no attributes, regular type |
| ParameterDescriptor.ToolParameterDescriptor.Named | s2tbx-tooladapter/src/main/java/org/esa/s2tbx/framework/gpf/descriptor/ToolParameterDescriptor.java:20-22 | the name and data type, regular type |
| ParameterDescriptor.ToolParameterDescriptor.Copy | s2tbx-tooladapter/src/main/java/org/esa/s2tbx/framework/gpf/descriptor/ToolParameterDescriptor.java:24-44 | every attribute from name through itemAlias copied unchanged, regular type |
| ParameterDescriptor.ToolParameterDescriptor.CopyWithMask | s2tbx-tooladapter/src/main/java/org/esa/s2tbx/framework/gpf/descriptor/ToolParameterDescriptor.java:46-49 | the copied attributes with the given mask in place of the regular type |
| ParameterDescriptor.ToolParameterDescriptor.GetParameterType | s2tbx-tooladapter/src/main/java/org/esa/s2tbx/framework/gpf/descriptor/ToolParameterDescriptor.java:79-84 | never null: the effective type, which is then stored in the field |
| ParameterDescriptor.ToolParameterDescriptor.SetParameterType | s2tbx-tooladapter/src/main/java/org/esa/s2tbx/framework/gpf/descriptor/ToolParameterDescriptor.java:102-104 | the field becomes the given value, null included |
| ParameterDescriptor.ToolParameterDescriptor.IsTemplateParameter | s2tbx-tooladapter/src/main/java/org/esa/s2tbx/framework/gpf/descriptor/ToolParameterDescriptor.java:86-88 | true iff the effective type is the template mask; the getter's write happens |
| ParameterDescriptor.ToolParameterDescriptor.IsTemplateBefore | s2tbx-tooladapter/src/main/java/org/esa/s2tbx/framework/gpf/descriptor/ToolParameterDescriptor.java:90-92 | true iff the effective type is the before-template mask |
| ParameterDescriptor.ToolParameterDescriptor.IsTemplateAfter | s2tbx-tooladapter/src/main/java/org/esa/s2tbx/framework/gpf/descriptor/ToolParameterDescriptor.java:94-96 | true iff the effective type is the after-template mask |
| ParameterDescriptor.ToolParameterDescriptor.IsParameter | s2tbx-tooladapter/src/main/java/org/esa/s2tbx/framework/gpf/descriptor/ToolParameterDescriptor.java:98-100 | true iff the effective type is the regular mask |

## Left out

- JAI image operators (translate, constant, mosaic with `MOSAIC_TYPE_OVERLAY` and its background fill, crop, the image layout hints) and the `JP2TileOpImage` decoder are foreign. The mosaic is its source list and crop rectangle, and the decoder is a parameter; which source wins where sources overlap is not modelled.
- `DefaultMultiLevelSource.getLevelImageBounds` and `getModel().getScale(level)` are not part of this model. They are the `levelBounds` parameter, and the J2K rule is an assumption about it (`FollowsJ2kRule`), not a proved fact.
- Floating point: angle samples are `Finite(real) | NaN | Infinite`. The rescale factors, nearest-neighbour rescaling (`SourceImageScaler`) and the tie-point sub-sampling factor are not modelled; a rescaled image is symbolic.
- Rescale.ScaleBands: a rescaled image is taken to have the size of the reference image; what `SourceImageScaler` produces is foreign.
- Geocoding and CRS handling (`CrsGeoCoding`, GeoTools), the product-directory and metadata discovery of `getMosaicProduct` before the band loop, and the creation of the bands and tie-point grids of the product (`addBands`, `createTiePointGrid`) are left out: they build objects of foreign libraries.
- The file system: `File.exists` and the granule directory name parser (`S2OrthoGranuleDirFilename.create`, which is not part of this model) are parameters; `File.separator` is '/'.
- Masks.AddVectorMask: the reference band is the physical band name; `product.getBand` is taken to find it, so a null reference band is not modelled.
- `MaskInfo` is not part of this model: its level test, per-band names and descriptions are fields of `MaskKind` given as functions, and `GmlFilter` polygon parsing is a parameter. The feature plumbing (`Placemark`, `DefaultFeatureCollection`, `VectorDataNode`) is reduced to the feature names and ids.
- `ColorIterator` is a counter, so only the order in which colours are taken is modelled, not the colours.
- `S2Metadata`, `S2BandInformation` and its subclasses, and `S2OrthoSceneLayout` are not part of this model beyond the fields the core reads (`Product`, `AngleGrids.TileAngles`, `Masks.MetadataTile`).
- TiePointSource.TiePointGridSource.CreateImage: a null tile image is kept as a translated entry without an image; what `TranslateDescriptor.create` does with a null source is foreign.
- Logging, `TimeProbe` and `ToStringBuilder` are left out; they do not affect results.
- The unsynchronised `tiePointGridsMap` is modelled as a sequential cache; concurrent access is not modelled.
- Text.ToLower: case mapping covers ASCII letters only; Java's full Unicode case mapping is not modelled.
- AngleGrids: a null zenith or azimuth array of an angles grid, or a null row inside one, cannot be represented (rows are sequences). In a viewing grid such a null raises a `NullPointerException` that the `catch (Exception)` at line 551 swallows, so that grid is skipped for the sample; in the sun grid it escapes the loop. The model has no such grids.
- Product.BandNames: the `default` branch that returns null for an unknown resolution cannot be reached with the three resolutions of the model.
- Tool-adapter plumbing: XStream (de)serialisation (`createXStream`, `toXml`, and the XML document itself), the `URL` and `File` overloads of `fromXml`, and reflection (`PrivilegedAccessor`, `getAttribute`/`setAttribute`) are left out. `FromXml` takes what the XML reader read as a parameter: a stream error, or the decoded document with one entry per field and `None` for an absent element. How XStream maps element names to fields is not modelled.
- The plain getters and setters of `ToolAdapterOperatorDescriptor` that only read or write one field (label, version, description, authors, copyright, operator class, template file, working dir, main tool file, patterns, processing writer, preprocessing) are not modelled one by one. Their fields are grouped in `Attributes` and `ToolSettings` and copied as wholes.
- `SystemVariable.createCopy`, the `TemplateParameterDescriptor` copy constructor and its `equals` are not part of this model. A copy is an equal value, and `remove` uses value equality.
- `DefaultParameterDescriptor` is not part of this model: its attributes are one value, with class references as names.
- `ToolAdapterConstants` is not part of this model: the four masks are distinct symbolic values.
- `OpenJpegExecRetriever` (environment probing and process execution), `APRODUCTINFOUSERL1AL1BSAFE` (a generated bean), `MetadataReaderTest` and `S2OrthoProduct60MReaderPlugIn` (plug-in wiring) are outside the modelled core.
