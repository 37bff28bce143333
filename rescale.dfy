/**
 * `scaleBands`: in single-resolution mode every band whose source image is
 * not at the scene size is rescaled onto the image of a reference band, the
 * first band of the band list at the product resolution.
 *
 * The scaling itself (`SourceImageScaler.scaleMultiLevelImage`, with float
 * scale factors and nearest-neighbour interpolation) is foreign: a rescaled
 * image is the symbolic `Rescaled(reference, source)`, taken to have the
 * reference image's size.
 */
module Rescale {
  import opened Wrappers
  import opened Text
  import opened Product

  /** A band's multi-level source image: as decoded (with its size), or rescaled onto a reference image. */
  datatype BandImage = LevelImage(key: string, width: int, height: int) | Rescaled(reference: BandImage, source: BandImage)
  {
    function Width(): int
    {
      match this
      case LevelImage(_, w, _) => w
      case Rescaled(reference, _) => reference.Width()
    }

    function Height(): int
    {
      match this
      case LevelImage(_, _, h) => h
      case Rescaled(reference, _) => reference.Height()
    }
  }

  /** A band of the product: its name and its current source image. */
  datatype ProductBand = ProductBand(name: string, image: BandImage)

  /** What `scaleBands` leaves behind: the product's bands, or the `IOException` it throws, or a null dereference. */
  datatype ScaleOutcome = ScaledBands(bands: seq<ProductBand>) | ScaleIOError(message: string) | ScaleFault

  /** The message of the `IOException` thrown when no band is at the product resolution. */
  function NoBandsMessage(res: Resolution): (m: string)
    ensures IsPrefix("Products with no bands at " + Decimal(res.Meters()), m)
  {
    var meters := Decimal(res.Meters());
    "Products with no bands at " + meters + " m resolution currently cannot be read by the " + meters + " m reader"
  }

  /** `product.getBand(name)`: the position of the first band with that name. */
  function FindBand(bands: seq<ProductBand>, name: string): (r: Option<nat>)
    ensures r.Some? ==> r.value < |bands| && bands[r.value].name == name
                        && forall i :: 0 <= i < r.value ==> bands[i].name != name
    ensures r.None? <==> forall i :: 0 <= i < |bands| ==> bands[i].name != name
  {
    if bands == [] then None
    else if bands[0].name == name then Some(0)
    else
      match FindBand(bands[1..], name)
      case None => None
      case Some(k) => Some(k + 1)
  }

  /** One band after the rescaling loop: unchanged at the scene size, otherwise rescaled onto `target`. */
  function RescaleBand(band: ProductBand, target: BandImage, sceneWidth: int, sceneHeight: int): ProductBand
  {
    if band.image.Width() == sceneWidth && band.image.Height() == sceneHeight then band
    else band.(image := Rescaled(target, band.image))
  }

  /** The rescaling loop over all bands of the product. */
  function RescaleAll(bands: seq<ProductBand>, target: BandImage, sceneWidth: int, sceneHeight: int): (r: seq<ProductBand>)
    ensures |r| == |bands|
  {
    seq(|bands|, i requires 0 <= i < |bands| => RescaleBand(bands[i], target, sceneWidth, sceneHeight))
  }

  /** `scaleBands` as a whole. */
  function ScaleBandsSpec(multiResolution: bool, productResolution: Resolution, bandInfoList: seq<BandInfo>,
                          bands: seq<ProductBand>, sceneWidth: int, sceneHeight: int): ScaleOutcome
  {
    if multiResolution then ScaledBands(bands)
    else
      match FirstAtResolution(bandInfoList, productResolution)
      case None => ScaleIOError(NoBandsMessage(productResolution))
      case Some(k) =>
        match FindBand(bands, bandInfoList[k].information.physicalBand)
        case None => ScaleFault
        case Some(j) => ScaledBands(RescaleAll(bands, bands[j].image, sceneWidth, sceneHeight))
  }

  /**
   * Every band keeps its name and place; a band at the scene size keeps its
   * image; any other band gets its image rescaled onto the target.
   */
  lemma RescaleAllEntry(bands: seq<ProductBand>, target: BandImage, sceneWidth: int, sceneHeight: int, i: nat)
    requires i < |bands|
    ensures var b := RescaleAll(bands, target, sceneWidth, sceneHeight)[i];
            && b.name == bands[i].name
            && (bands[i].image.Width() == sceneWidth && bands[i].image.Height() == sceneHeight ==> b == bands[i])
            && (!(bands[i].image.Width() == sceneWidth && bands[i].image.Height() == sceneHeight) ==>
                  b.image == Rescaled(target, bands[i].image))
  {
  }

  /** When the target image is at the scene size, every band is at the scene size afterwards. */
  lemma RescaleAllReachesSceneSize(bands: seq<ProductBand>, target: BandImage, sceneWidth: int, sceneHeight: int)
    requires target.Width() == sceneWidth && target.Height() == sceneHeight
    ensures forall b :: b in RescaleAll(bands, target, sceneWidth, sceneHeight) ==>
              b.image.Width() == sceneWidth && b.image.Height() == sceneHeight
  {
  }

  /** Rescaling onto a target at the scene size a second time changes nothing. */
  lemma RescaleAllIdempotent(bands: seq<ProductBand>, target: BandImage, sceneWidth: int, sceneHeight: int)
    requires target.Width() == sceneWidth && target.Height() == sceneHeight
    ensures var once := RescaleAll(bands, target, sceneWidth, sceneHeight);
            RescaleAll(once, target, sceneWidth, sceneHeight) == once
  {
    var once := RescaleAll(bands, target, sceneWidth, sceneHeight);
    RescaleAllReachesSceneSize(bands, target, sceneWidth, sceneHeight);
    forall i | 0 <= i < |once|
      ensures RescaleAll(once, target, sceneWidth, sceneHeight)[i] == once[i]
    {
      assert once[i] in once;
    }
  }

  /**
   * The outcomes of `scaleBands`: nothing changes in multi-resolution mode;
   * otherwise it throws exactly when no listed band is at the product
   * resolution, and else rescales onto the image of the product band named
   * after the first listed band at that resolution.
   */
  lemma ScaleBandsOutcomes(multiResolution: bool, productResolution: Resolution, bandInfoList: seq<BandInfo>,
                           bands: seq<ProductBand>, sceneWidth: int, sceneHeight: int)
    ensures var r := ScaleBandsSpec(multiResolution, productResolution, bandInfoList, bands, sceneWidth, sceneHeight);
            && (multiResolution ==> r == ScaledBands(bands))
            && (!multiResolution ==>
                  (r.ScaleIOError? <==> forall i :: 0 <= i < |bandInfoList| ==> bandInfoList[i].information.resolution != productResolution))
            && (r.ScaleIOError? ==> r.message == NoBandsMessage(productResolution))
            && (r.ScaledBands? && !multiResolution ==>
                  exists k, j :: && 0 <= k < |bandInfoList| && 0 <= j < |bands|
                                 && bandInfoList[k].information.resolution == productResolution
                                 && (forall i :: 0 <= i < k ==> bandInfoList[i].information.resolution != productResolution)
                                 && bands[j].name == bandInfoList[k].information.physicalBand
                                 && r.bands == RescaleAll(bands, bands[j].image, sceneWidth, sceneHeight))
  {
    if !multiResolution {
      match FirstAtResolution(bandInfoList, productResolution)
      case None =>
      case Some(k) =>
        match FindBand(bands, bandInfoList[k].information.physicalBand)
        case None =>
        case Some(j) =>
          assert bands[j].name == bandInfoList[k].information.physicalBand;
    }
  }

  /**
   * When the reference band is already at the scene size, running
   * `scaleBands` again on the bands it produced changes nothing.
   */
  lemma ScaleBandsIdempotent(productResolution: Resolution, bandInfoList: seq<BandInfo>,
                             bands: seq<ProductBand>, sceneWidth: int, sceneHeight: int, k: nat, j: nat)
    requires FirstAtResolution(bandInfoList, productResolution) == Some(k)
    requires FindBand(bands, bandInfoList[k].information.physicalBand) == Some(j)
    requires bands[j].image.Width() == sceneWidth && bands[j].image.Height() == sceneHeight
    ensures var once := ScaleBandsSpec(false, productResolution, bandInfoList, bands, sceneWidth, sceneHeight);
            && once.ScaledBands?
            && ScaleBandsSpec(false, productResolution, bandInfoList, once.bands, sceneWidth, sceneHeight) == once
  {
    var target := bands[j].image;
    var once := RescaleAll(bands, target, sceneWidth, sceneHeight);
    RescaleAllEntry(bands, target, sceneWidth, sceneHeight, j);
    assert once[j].image == target;
    forall i | 0 <= i < |once|
      ensures once[i].name == bands[i].name
    {
      RescaleAllEntry(bands, target, sceneWidth, sceneHeight, i);
    }
    FindBandByNames(once, bands, bandInfoList[k].information.physicalBand);
    RescaleAllIdempotent(bands, target, sceneWidth, sceneHeight);
    assert ScaleBandsSpec(false, productResolution, bandInfoList, once, sceneWidth, sceneHeight)
           == ScaledBands(RescaleAll(once, target, sceneWidth, sceneHeight));
  }

  /** `getBand` only looks at the names: two band lists with the same names find the same position. */
  lemma {:induction false} FindBandByNames(a: seq<ProductBand>, b: seq<ProductBand>, name: string)
    requires |a| == |b| && forall i :: 0 <= i < |a| ==> a[i].name == b[i].name
    ensures FindBand(a, name) == FindBand(b, name)
  {
    if a != [] && a[0].name != name {
      FindBandByNames(a[1..], b[1..], name);
    }
  }

  /**
   * The loop of `scaleBands` that looks for the reference band: the image of
   * the band named like the first listed band at the product resolution.
   * `fault` is the null dereference when the product has no such band.
   */
  method ReferenceImage(productResolution: Resolution, bandInfoList: seq<BandInfo>, bands: seq<ProductBand>)
    returns (targetImage: Option<BandImage>, fault: bool)
    ensures targetImage.Some? ==> !fault
    ensures match FirstAtResolution(bandInfoList, productResolution)
            case None => targetImage.None? && !fault
            case Some(k) =>
              match FindBand(bands, bandInfoList[k].information.physicalBand)
              case None => fault
              case Some(j) => targetImage == Some(bands[j].image)
  {
    targetImage, fault := None, false;
    var k := 0;
    while k < |bandInfoList|
      invariant 0 <= k <= |bandInfoList|
      invariant forall i :: 0 <= i < k ==> bandInfoList[i].information.resolution != productResolution
    {
      if bandInfoList[k].information.resolution == productResolution {
        assert FirstAtResolution(bandInfoList, productResolution) == Some(k);
        var referenceBand := FindBand(bands, bandInfoList[k].information.physicalBand);
        if referenceBand.None? {
          return None, true;
        }
        return Some(bands[referenceBand.value].image), false;
      }
      k := k + 1;
    }
  }

  /** The loop of `scaleBands` that rescales every band not at the scene size onto `target`. */
  method RescaleBands(bands: seq<ProductBand>, target: BandImage, sceneWidth: int, sceneHeight: int)
    returns (scaled: seq<ProductBand>)
    ensures scaled == RescaleAll(bands, target, sceneWidth, sceneHeight)
  {
    scaled := bands;
    var i := 0;
    while i < |bands|
      invariant 0 <= i <= |bands| && |scaled| == |bands|
      invariant scaled[..i] == RescaleAll(bands, target, sceneWidth, sceneHeight)[..i]
      invariant scaled[i..] == bands[i..]
    {
      var sourceImage := scaled[i].image;
      if !(sourceImage.Width() == sceneWidth && sourceImage.Height() == sceneHeight) {
        scaled := scaled[i := scaled[i].(image := Rescaled(target, sourceImage))];
      }
      assert scaled[i] == RescaleBand(bands[i], target, sceneWidth, sceneHeight);
      i := i + 1;
    }
  }

  /** `scaleBands`. */
  method ScaleBands(multiResolution: bool, productResolution: Resolution, bandInfoList: seq<BandInfo>,
                    bands: seq<ProductBand>, sceneWidth: int, sceneHeight: int)
    returns (r: ScaleOutcome)
    ensures r == ScaleBandsSpec(multiResolution, productResolution, bandInfoList, bands, sceneWidth, sceneHeight)
  {
    if multiResolution {
      return ScaledBands(bands);
    }
    var targetImage, fault := ReferenceImage(productResolution, bandInfoList, bands);
    if fault {
      return ScaleFault;
    }
    if targetImage.None? {
      return ScaleIOError(NoBandsMessage(productResolution));
    }
    var scaled := RescaleBands(bands, targetImage.value, sceneWidth, sceneHeight);
    return ScaledBands(scaled);
  }
}
