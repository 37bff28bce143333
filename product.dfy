/**
 * The immutable data the scene assembly works on, as built when a product is
 * opened: spatial resolutions, band descriptions, the per-band granule file
 * map, and the scene layout (tile placement per resolution).
 */
module Product {
  import opened Wrappers
  import opened Geometry

  /** `S2SpatialResolution`, in declaration order. */
  datatype Resolution = R10M | R20M | R60M
  {
    function Meters(): nat
    {
      match this
      case R10M => 10
      case R20M => 20
      case R60M => 60
    }
  }

  /** `S2SpatialResolution.values()`. */
  const AllResolutions: seq<Resolution> := [R10M, R20M, R60M]

  type TileId = string

  /** A file path below the product directory. */
  type FilePath = string

  /** One coded value of an index band's `IndexCoding`. */
  datatype IndexEntry = IndexEntry(name: string, value: int, description: string)

  /**
   * The subclass of `S2BandInformation`: a plain band, an `S2SpectralInformation`
   * (with its band id) or an `S2IndexBandInformation` (with its coding, in the
   * order of `getIndexNames`).
   */
  datatype BandKind = Plain | Spectral(bandId: int) | IndexBand(coding: seq<IndexEntry>)

  /** `S2BandInformation`. */
  datatype BandInformation = BandInformation(
    physicalBand: string,
    resolution: Resolution,
    imageFileTemplate: string,
    description: string,
    unit: string,
    kind: BandKind)

  /** `BandInfo`: a band, the files of the granules that have one, and its tile layout. */
  datatype BandInfo = BandInfo(information: BandInformation, tileFiles: map<TileId, FilePath>, layout: TileLayout)

  /**
   * `S2OrthoSceneLayout`: the tile ids in scene order, each tile's level-0
   * rectangle per resolution, and the scene dimension per resolution.
   */
  datatype SceneLayout = SceneLayout(
    tileIds: seq<TileId>,
    positions: map<(TileId, Resolution), Rect>,
    dimensions: map<Resolution, Dimension>)
  {
    /** Every scene tile is placed at resolution `res`, and the scene has a size there. */
    ghost predicate PlacedAt(res: Resolution)
    {
      res in dimensions && forall id :: id in tileIds ==> (id, res) in positions
    }
  }

  /**
   * `getBandNames`: the physical bands of each resolution. The table is its
   * own specification; the contract only records its shape.
   */
  function BandNames(res: Resolution): (names: seq<string>)
    ensures |names| > 0
    ensures forall n :: n in names ==> |n| == 3 && n[0] == 'B'
  {
    match res
    case R10M => ["B02", "B03", "B04", "B08"]
    case R20M => ["B05", "B06", "B07", "B8A", "B11", "B12"]
    case R60M => ["B01", "B09", "B10"]
  }

  /**
   * The loop shared by `scaleBands` and `addVectorMask`: the position of the
   * first entry of the band list at resolution `res`, if there is one.
   */
  function FirstAtResolution(bandInfoList: seq<BandInfo>, res: Resolution): (r: Option<nat>)
    ensures r.Some? ==> && r.value < |bandInfoList|
                        && bandInfoList[r.value].information.resolution == res
                        && forall i :: 0 <= i < r.value ==> bandInfoList[i].information.resolution != res
    ensures r.None? <==> forall i :: 0 <= i < |bandInfoList| ==> bandInfoList[i].information.resolution != res
  {
    if bandInfoList == [] then None
    else if bandInfoList[0].information.resolution == res then Some(0)
    else
      match FirstAtResolution(bandInfoList[1..], res)
      case None => None
      case Some(k) => Some(k + 1)
  }
}
