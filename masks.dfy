/**
 * The masks a product gets: one band-maths mask per coded value of each index
 * band (`addIndexMasks`), and vector masks built from the polygons of the
 * granules' mask files (`addVectorMasks`, `addVectorMask`).
 *
 * The GML parser (`GmlFilter.parse`) is a parameter, polygons are opaque
 * handles, and the colour handed out by `ColorIterator.next()` is its
 * position in the iterator's sequence.
 */
module Masks {
  import opened Wrappers
  import opened Text
  import opened Product

  /** A mask colour: the `tick`-th colour of the shared colour iterator, or a fixed colour of a mask kind. */
  datatype Color = IteratorColor(tick: nat) | FixedColor(rgb: int)

  /** An opaque polygon geometry. */
  datatype Polygon = Polygon(shape: nat)

  /** `EopPolygon`: a polygon read from a mask file, with its subtype. */
  datatype EopPolygon = EopPolygon(polygonType: string, polygon: Polygon)

  /** A feature of a vector mask's collection, with its "Polygon-i" name and "F-i" id. */
  datatype Feature = Feature(geometry: Polygon, name: string, id: string)

  /** A mask added to the product. */
  datatype Mask =
    | BandMathsMask(name: string, description: string, width: int, height: int,
                    expression: string, color: Color, transparency: real)
    | VectorMask(name: string, description: string, features: seq<Feature>,
                 color: Color, transparency: real, referenceBand: string)

  /** `S2Metadata.MaskFilename`. */
  datatype MaskFilename = MaskFilename(maskType: string, bandId: string, name: FilePath)

  /** The mask files listed for one granule, in metadata order. */
  datatype MetadataTile = MetadataTile(id: TileId, maskFilenames: seq<MaskFilename>)

  /**
   * One `MaskInfo` kind. The level test and the per-band name and description
   * are parameters, as the enumeration's own code is not part of this model.
   */
  datatype MaskKind = MaskKind(
    mainType: string,
    subType: string,
    perBand: bool,
    presentAtLevel: int -> bool,
    snapName: string,
    description: string,
    color: Color,
    transparency: real,
    snapNameForBand: string -> string,
    descriptionForBand: string -> string)

  /** An `S2SpectralInformation` handed to `addVectorMask`: the band's name and its numeric band id. */
  datatype SpectralBand = SpectralBand(physicalBand: string, bandId: int)

  /** The reader used to read polygons from a mask file. */
  type GmlParser = FilePath -> seq<EopPolygon>

  // ---------------------------------------------------------------- index masks

  /** The band-maths mask for one coded value of an index band. */
  function IndexMask(physicalBand: string, entry: IndexEntry, width: int, height: int, tick: nat): (m: Mask)
    ensures m.BandMathsMask? && IsPrefix("scl_", m.name) && |m.name| == 4 + |entry.name|
    ensures m.width == width && m.height == height && m.color == IteratorColor(tick) && m.transparency == 0.5
  {
    BandMathsMask("scl_" + ToLower(entry.name), entry.description, width, height,
                  physicalBand + ".raw == " + Decimal(entry.value), IteratorColor(tick), 0.5)
  }

  /** The masks of one index coding, in index-name order, taking consecutive colours from `tick`. */
  function CodingMasks(physicalBand: string, coding: seq<IndexEntry>, width: int, height: int, tick: nat): (r: seq<Mask>)
    ensures |r| == |coding|
  {
    seq(|coding|, i requires 0 <= i < |coding| => IndexMask(physicalBand, coding[i], width, height, tick + i))
  }

  /** The number of coded values over all index bands of the list. */
  function IndexEntryCount(bandInfoList: seq<BandInfo>): nat
  {
    if bandInfoList == [] then 0
    else
      match bandInfoList[0].information.kind
      case IndexBand(coding) => |coding| + IndexEntryCount(bandInfoList[1..])
      case _ => IndexEntryCount(bandInfoList[1..])
  }

  /** The codings added to the product's index coding group, in band order. */
  function IndexCodings(bandInfoList: seq<BandInfo>): (r: seq<seq<IndexEntry>>)
    ensures |r| <= |bandInfoList|
  {
    if bandInfoList == [] then []
    else
      match bandInfoList[0].information.kind
      case IndexBand(coding) => [coding] + IndexCodings(bandInfoList[1..])
      case _ => IndexCodings(bandInfoList[1..])
  }

  /** The masks `addIndexMasks` adds, when the colour iterator stands at `tick`. */
  function IndexMasks(bandInfoList: seq<BandInfo>, width: int, height: int, tick: nat): seq<Mask>
  {
    if bandInfoList == [] then []
    else
      var info := bandInfoList[0].information;
      match info.kind
      case IndexBand(coding) =>
        CodingMasks(info.physicalBand, coding, width, height, tick)
        + IndexMasks(bandInfoList[1..], width, height, tick + |coding|)
      case _ => IndexMasks(bandInfoList[1..], width, height, tick)
  }

  /**
   * One mask per coded value, each a scene-size band-maths mask named
   * "scl_..." at half transparency, with the colours taken one after the
   * other from the iterator.
   */
  lemma {:induction false} IndexMasksShape(bandInfoList: seq<BandInfo>, width: int, height: int, tick: nat)
    ensures var r := IndexMasks(bandInfoList, width, height, tick);
            && |r| == IndexEntryCount(bandInfoList)
            && forall i :: 0 <= i < |r| ==>
                 && r[i].BandMathsMask? && IsPrefix("scl_", r[i].name)
                 && r[i].width == width && r[i].height == height && r[i].transparency == 0.5
                 && r[i].color == IteratorColor(tick + i)
  {
    if bandInfoList != [] {
      var info := bandInfoList[0].information;
      match info.kind
      case IndexBand(coding) =>
        IndexMasksShape(bandInfoList[1..], width, height, tick + |coding|);
        var head: seq<Mask> := CodingMasks(info.physicalBand, coding, width, height, tick);
        var rest: seq<Mask> := IndexMasks(bandInfoList[1..], width, height, tick + |coding|);
        forall i | 0 <= i < |head| + |rest|
          ensures (head + rest)[i].color == IteratorColor(tick + i)
        {
          if i >= |head| {
            assert (head + rest)[i] == rest[i - |coding|];
          }
        }
      case Plain =>
        IndexMasksShape(bandInfoList[1..], width, height, tick);
      case Spectral(_) =>
        IndexMasksShape(bandInfoList[1..], width, height, tick);
    }
  }

  /** The coded values and the codings of a concatenated band list are those of the two parts. */
  lemma {:induction false} IndexCountsAppend(a: seq<BandInfo>, b: seq<BandInfo>)
    ensures IndexEntryCount(a + b) == IndexEntryCount(a) + IndexEntryCount(b)
    ensures IndexCodings(a + b) == IndexCodings(a) + IndexCodings(b)
  {
    if a == [] {
      assert a + b == b;
    } else {
      assert (a + b)[0] == a[0] && (a + b)[1..] == a[1..] + b;
      IndexCountsAppend(a[1..], b);
      if a[0].information.kind.IndexBand? {
        ConcatAssoc([a[0].information.kind.coding], IndexCodings(a[1..]), IndexCodings(b));
      }
    }
  }

  /** The first step of `IndexMasks`: the masks of the first band, if it is an index band, then the rest. */
  lemma IndexMasksUnfold(bandInfoList: seq<BandInfo>, width: int, height: int, tick: nat)
    requires bandInfoList != []
    ensures var info := bandInfoList[0].information;
            var rest := bandInfoList[1..];
            && (info.kind.IndexBand? ==>
                  IndexMasks(bandInfoList, width, height, tick)
                  == CodingMasks(info.physicalBand, info.kind.coding, width, height, tick)
                     + IndexMasks(rest, width, height, tick + |info.kind.coding|))
            && (info.kind.IndexBand? ==> IndexEntryCount(bandInfoList) == |info.kind.coding| + IndexEntryCount(rest))
            && (!info.kind.IndexBand? ==> IndexMasks(bandInfoList, width, height, tick) == IndexMasks(rest, width, height, tick))
            && (!info.kind.IndexBand? ==> IndexEntryCount(bandInfoList) == IndexEntryCount(rest))
  {
  }

  /** The masks of a concatenated band list are those of the first part followed by those of the second. */
  lemma {:induction false} IndexMasksAppend(a: seq<BandInfo>, b: seq<BandInfo>, width: int, height: int, tick: nat)
    ensures IndexMasks(a + b, width, height, tick)
            == IndexMasks(a, width, height, tick) + IndexMasks(b, width, height, tick + IndexEntryCount(a))
  {
    if a == [] {
      assert a + b == b;
    } else {
      var ab := a + b;
      assert ab[0] == a[0] && ab[1..] == a[1..] + b;
      IndexMasksUnfold(a, width, height, tick);
      IndexMasksUnfold(ab, width, height, tick);
      var info := a[0].information;
      if info.kind.IndexBand? {
        var coding := info.kind.coding;
        IndexMasksAppend(a[1..], b, width, height, tick + |coding|);
        ConcatAssoc(CodingMasks(info.physicalBand, coding, width, height, tick),
                    IndexMasks(a[1..], width, height, tick + |coding|),
                    IndexMasks(b, width, height, tick + IndexEntryCount(a)));
      } else {
        IndexMasksAppend(a[1..], b, width, height, tick);
      }
    }
  }

  /** The first masks of a list that starts with an index band are that band's, one per coded value. */
  lemma IndexMasksHead(bandInfoList: seq<BandInfo>, width: int, height: int, tick: nat, e: nat)
    requires bandInfoList != [] && bandInfoList[0].information.kind.IndexBand?
    requires e < |bandInfoList[0].information.kind.coding|
    ensures var info := bandInfoList[0].information;
            var r := IndexMasks(bandInfoList, width, height, tick);
            e < |r| && r[e] == IndexMask(info.physicalBand, info.kind.coding[e], width, height, tick + e)
  {
    var info := bandInfoList[0].information;
    var head := CodingMasks(info.physicalBand, info.kind.coding, width, height, tick);
    var rest := IndexMasks(bandInfoList[1..], width, height, tick + |info.kind.coding|);
    IndexMasksUnfold(bandInfoList, width, height, tick);
    assert head[e] == IndexMask(info.physicalBand, info.kind.coding[e], width, height, tick + e);
    assert (head + rest)[e] == head[e];
  }

  /**
   * Index value `e` of index band `k` gets its own mask, right after the
   * masks of the bands before it: named "scl_" + the lower-cased index name,
   * with expression "<band>.raw == <value>".
   */
  lemma IndexMasksEntry(bandInfoList: seq<BandInfo>, width: int, height: int, tick: nat, k: nat, e: nat)
    requires k < |bandInfoList| && bandInfoList[k].information.kind.IndexBand?
    requires e < |bandInfoList[k].information.kind.coding|
    ensures var info := bandInfoList[k].information;
            var entry := info.kind.coding[e];
            var i := IndexEntryCount(bandInfoList[..k]) + e;
            var r := IndexMasks(bandInfoList, width, height, tick);
            && i < |r|
            && r[i] == IndexMask(info.physicalBand, entry, width, height, tick + i)
            && r[i].name == "scl_" + ToLower(entry.name)
            && r[i].expression == info.physicalBand + ".raw == " + Decimal(entry.value)
  {
    var before := bandInfoList[..k];
    var after := bandInfoList[k..];
    var n := IndexEntryCount(before);
    var info := bandInfoList[k].information;
    var entry := info.kind.coding[e];
    var r := IndexMasks(bandInfoList, width, height, tick);
    var front := IndexMasks(before, width, height, tick);
    var tail := IndexMasks(after, width, height, tick + n);
    assert bandInfoList == before + after;
    IndexMasksAppend(before, after, width, height, tick);
    assert r == front + tail;
    IndexMasksShape(before, width, height, tick);
    assert |front| == n;
    assert after[0] == bandInfoList[k];
    IndexMasksHead(after, width, height, tick + n, e);
    var m := IndexMask(info.physicalBand, entry, width, height, tick + n + e);
    assert tail[e] == m;
    assert r[n + e] == m;
    assert m.name == "scl_" + ToLower(entry.name);
    assert m.expression == info.physicalBand + ".raw == " + Decimal(entry.value);
  }

  /** The inner loop of `addIndexMasks`: one mask per index name, each taking the iterator's next colour. */
  method AddCodingMasks(physicalBand: string, coding: seq<IndexEntry>, width: int, height: int,
                        masks0: seq<Mask>, tick0: nat)
    returns (masks: seq<Mask>, tick: nat)
    ensures masks == masks0 + CodingMasks(physicalBand, coding, width, height, tick0)
    ensures tick == tick0 + |coding|
  {
    masks, tick := masks0, tick0;
    ghost var all := CodingMasks(physicalBand, coding, width, height, tick0);
    var j := 0;
    while j < |coding|
      invariant 0 <= j <= |coding|
      invariant masks == masks0 + all[..j]
      invariant tick == tick0 + j
    {
      var mask := BandMathsMask("scl_" + ToLower(coding[j].name), coding[j].description, width, height,
                                physicalBand + ".raw == " + Decimal(coding[j].value), IteratorColor(tick), 0.5);
      assert all[..j + 1] == all[..j] + [mask];
      masks := masks + [mask];
      tick := tick + 1;
      j := j + 1;
    }
    assert all[..j] == all;
  }

  /** One step of the band loop of `addIndexMasks`, from band `b` on. */
  lemma IndexMasksStep(bandInfoList: seq<BandInfo>, b: nat, width: int, height: int, tick: nat)
    requires b < |bandInfoList|
    ensures var info := bandInfoList[b].information;
            var rest := bandInfoList[b + 1..];
            && (info.kind.IndexBand? ==>
                  && IndexMasks(bandInfoList[b..], width, height, tick)
                     == CodingMasks(info.physicalBand, info.kind.coding, width, height, tick)
                        + IndexMasks(rest, width, height, tick + |info.kind.coding|)
                  && IndexCodings(bandInfoList[b..]) == [info.kind.coding] + IndexCodings(rest)
                  && IndexEntryCount(bandInfoList[b..]) == |info.kind.coding| + IndexEntryCount(rest))
            && (!info.kind.IndexBand? ==>
                  && IndexMasks(bandInfoList[b..], width, height, tick) == IndexMasks(rest, width, height, tick)
                  && IndexCodings(bandInfoList[b..]) == IndexCodings(rest)
                  && IndexEntryCount(bandInfoList[b..]) == IndexEntryCount(rest))
  {
    assert bandInfoList[b..][0] == bandInfoList[b] && bandInfoList[b..][1..] == bandInfoList[b + 1..];
  }

  /**
   * `addIndexMasks`: for each index band, add its coding to the product and
   * one mask per index name; returns the product's masks and codings after
   * it and the colour iterator's new position.
   */
  method AddIndexMasks(bandInfoList: seq<BandInfo>, width: int, height: int,
                       masks0: seq<Mask>, codings0: seq<seq<IndexEntry>>, tick0: nat)
    returns (masks: seq<Mask>, codings: seq<seq<IndexEntry>>, tick: nat)
    ensures masks == masks0 + IndexMasks(bandInfoList, width, height, tick0)
    ensures codings == codings0 + IndexCodings(bandInfoList)
    ensures tick == tick0 + IndexEntryCount(bandInfoList)
  {
    masks, codings, tick := masks0, codings0, tick0;
    var b := 0;
    while b < |bandInfoList|
      invariant 0 <= b <= |bandInfoList|
      invariant masks + IndexMasks(bandInfoList[b..], width, height, tick)
                == masks0 + IndexMasks(bandInfoList, width, height, tick0)
      invariant codings + IndexCodings(bandInfoList[b..]) == codings0 + IndexCodings(bandInfoList)
      invariant tick + IndexEntryCount(bandInfoList[b..]) == tick0 + IndexEntryCount(bandInfoList)
    {
      IndexMasksStep(bandInfoList, b, width, height, tick);
      var info := bandInfoList[b].information;
      if info.kind.IndexBand? {
        var coding := info.kind.coding;
        ConcatAssoc(codings, [coding], IndexCodings(bandInfoList[b + 1..]));
        codings := codings + [coding];
        ghost var start := masks;
        ghost var tickStart := tick;
        masks, tick := AddCodingMasks(info.physicalBand, coding, width, height, masks, tick);
        ConcatAssoc(start, CodingMasks(info.physicalBand, coding, width, height, tickStart),
                    IndexMasks(bandInfoList[b + 1..], width, height, tick));
      }
      b := b + 1;
    }
  }

  // ---------------------------------------------------------------- vector masks

  /** The mask file is of the kind's main type and, for a band-specific mask, of that band ("%s" of its id). */
  predicate Selected(file: MaskFilename, kind: MaskKind, spectral: Option<SpectralBand>)
  {
    && file.maskType == kind.mainType
    && (spectral.Some? ==> file.bandId == Decimal(spectral.value.bandId))
  }

  /** The stream filter keeping the polygons of one subtype, in order. */
  function OfSubType(polygons: seq<EopPolygon>, subType: string): (r: seq<EopPolygon>)
    ensures |r| <= |polygons|
    ensures forall p :: p in r <==> p in polygons && p.polygonType == subType
  {
    if polygons == [] then []
    else if polygons[0].polygonType == subType then [polygons[0]] + OfSubType(polygons[1..], subType)
    else OfSubType(polygons[1..], subType)
  }

  /** The polygons contributed by a granule's mask files, in file order. */
  function FilePolygons(files: seq<MaskFilename>, kind: MaskKind, spectral: Option<SpectralBand>, parse: GmlParser)
    : seq<EopPolygon>
  {
    if files == [] then []
    else
      var rest := FilePolygons(files[1..], kind, spectral, parse);
      if Selected(files[0], kind, spectral) then OfSubType(parse(files[0].name), kind.subType) + rest else rest
  }

  /** `productPolygons`: the polygons of all granules, in tile order. */
  function ProductPolygons(tiles: seq<MetadataTile>, kind: MaskKind, spectral: Option<SpectralBand>, parse: GmlParser)
    : seq<EopPolygon>
  {
    if tiles == [] then []
    else FilePolygons(tiles[0].maskFilenames, kind, spectral, parse) + ProductPolygons(tiles[1..], kind, spectral, parse)
  }

  /**
   * A polygon is kept exactly when one of the granule's selected mask files
   * yields it and it is of the kind's subtype.
   */
  lemma {:induction false} FilePolygonsMembership(files: seq<MaskFilename>, kind: MaskKind, spectral: Option<SpectralBand>,
                                                  parse: GmlParser, p: EopPolygon)
    ensures p in FilePolygons(files, kind, spectral, parse) <==>
              && p.polygonType == kind.subType
              && exists f :: 0 <= f < |files| && Selected(files[f], kind, spectral) && p in parse(files[f].name)
  {
    if files != [] {
      FilePolygonsMembership(files[1..], kind, spectral, parse, p);
      if exists f :: 0 <= f < |files| && Selected(files[f], kind, spectral) && p in parse(files[f].name) {
        var f :| 0 <= f < |files| && Selected(files[f], kind, spectral) && p in parse(files[f].name);
        if f > 0 {
          assert files[1..][f - 1] == files[f];
        }
      }
      if exists f :: 0 <= f < |files| - 1 && Selected(files[1..][f], kind, spectral) && p in parse(files[1..][f].name) {
        var f :| 0 <= f < |files| - 1 && Selected(files[1..][f], kind, spectral) && p in parse(files[1..][f].name);
        assert files[1..][f] == files[f + 1];
      }
    }
  }

  /**
   * A polygon of the product's collection comes from a selected mask file of
   * some granule and is of the kind's subtype, and every such polygon is kept.
   */
  lemma {:induction false} ProductPolygonsMembership(tiles: seq<MetadataTile>, kind: MaskKind, spectral: Option<SpectralBand>,
                                                     parse: GmlParser, p: EopPolygon)
    ensures p in ProductPolygons(tiles, kind, spectral, parse) <==>
              exists t :: 0 <= t < |tiles| && p in FilePolygons(tiles[t].maskFilenames, kind, spectral, parse)
  {
    if tiles != [] {
      ProductPolygonsMembership(tiles[1..], kind, spectral, parse, p);
      if exists t :: 0 <= t < |tiles| && p in FilePolygons(tiles[t].maskFilenames, kind, spectral, parse) {
        var t :| 0 <= t < |tiles| && p in FilePolygons(tiles[t].maskFilenames, kind, spectral, parse);
        if t > 0 {
          assert tiles[1..][t - 1] == tiles[t];
        }
      }
      if exists t :: 0 <= t < |tiles| - 1 && p in FilePolygons(tiles[1..][t].maskFilenames, kind, spectral, parse) {
        var t :| 0 <= t < |tiles| - 1 && p in FilePolygons(tiles[1..][t].maskFilenames, kind, spectral, parse);
        assert tiles[1..][t] == tiles[t + 1];
      }
    }
  }

  /** Feature `i` of the collection: polygon `i`, named "Polygon-i" with id "F-i". */
  function Features(polygons: seq<EopPolygon>): (r: seq<Feature>)
    ensures |r| == |polygons|
  {
    seq(|polygons|, i requires 0 <= i < |polygons| =>
      Feature(polygons[i].polygon, "Polygon-" + Decimal(i), "F-" + Decimal(i)))
  }

  /** The feature ids of a collection are pairwise distinct. */
  lemma FeatureIdsDistinct(polygons: seq<EopPolygon>, i: nat, j: nat)
    requires i < j < |polygons|
    ensures Features(polygons)[i].id != Features(polygons)[j].id
  {
    var a, b := Decimal(i), Decimal(j);
    if "F-" + a == "F-" + b {
      assert a == ("F-" + a)[2..] == ("F-" + b)[2..] == b;
      DecimalInjective(i, j);
    }
  }

  /** The name of the resolution version of a non-band-specific mask: "<snapName>_<res>m". */
  function ResolutionMaskName(kind: MaskKind, res: Resolution): string
  {
    kind.snapName + "_" + Decimal(res.Meters()) + "m"
  }

  /**
   * One version of a non-band-specific mask per resolution of `resolutions`
   * that has a band in the list, referring to the first such band.
   */
  function ResolutionMasks(kind: MaskKind, features: seq<Feature>, bandInfoList: seq<BandInfo>, resolutions: seq<Resolution>)
    : (r: seq<Mask>)
    ensures |r| <= |resolutions|
  {
    if resolutions == [] then []
    else
      var rest := ResolutionMasks(kind, features, bandInfoList, resolutions[1..]);
      match FirstAtResolution(bandInfoList, resolutions[0])
      case None => rest
      case Some(k) =>
        [VectorMask(ResolutionMaskName(kind, resolutions[0]), kind.description, features, kind.color,
                    kind.transparency, bandInfoList[k].information.physicalBand)] + rest
  }

  /** `addVectorMask` for one kind, band-specific when `spectral` is given. */
  function VectorMaskOf(tiles: seq<MetadataTile>, kind: MaskKind, spectral: Option<SpectralBand>,
                        bandInfoList: seq<BandInfo>, parse: GmlParser): seq<Mask>
  {
    var features := Features(ProductPolygons(tiles, kind, spectral, parse));
    match spectral
    case None => ResolutionMasks(kind, features, bandInfoList, AllResolutions)
    case Some(band) =>
      [VectorMask(kind.snapNameForBand(band.physicalBand), kind.descriptionForBand(band.physicalBand), features,
                  kind.color, kind.transparency, band.physicalBand)]
  }

  /** The two resolution-version names differ for different resolutions. */
  lemma ResolutionMaskNamesDistinct(kind: MaskKind, a: Resolution, b: Resolution)
    requires a != b
    ensures ResolutionMaskName(kind, a) != ResolutionMaskName(kind, b)
  {
    var da, db := Decimal(a.Meters()), Decimal(b.Meters());
    var n := |kind.snapName| + 1;
    if ResolutionMaskName(kind, a) == ResolutionMaskName(kind, b) {
      assert ResolutionMaskName(kind, a) == (kind.snapName + "_") + (da + "m");
      assert ResolutionMaskName(kind, b) == (kind.snapName + "_") + (db + "m");
      assert da + "m" == ResolutionMaskName(kind, a)[n..] == ResolutionMaskName(kind, b)[n..] == db + "m";
      assert da == (da + "m")[..|da|];
      assert |da| == |db|;
      assert db == (db + "m")[..|db|];
      DecimalInjective(a.Meters(), b.Meters());
    }
  }

  /**
   * A non-band-specific kind yields a mask named "<snapName>_<res>m" exactly
   * for the resolutions that have a band in the list, each referring to the
   * first band at its resolution and holding the whole collection.
   */
  lemma {:induction false} ResolutionMasksFor(kind: MaskKind, features: seq<Feature>, bandInfoList: seq<BandInfo>,
                                              resolutions: seq<Resolution>, res: Resolution)
    requires res in resolutions
    ensures var r := ResolutionMasks(kind, features, bandInfoList, resolutions);
            (exists m :: m in r && m.name == ResolutionMaskName(kind, res)) <==>
              exists i :: 0 <= i < |bandInfoList| && bandInfoList[i].information.resolution == res
    ensures var r := ResolutionMasks(kind, features, bandInfoList, resolutions);
            forall m :: m in r ==> m.VectorMask? && m.features == features && m.color == kind.color
    ensures var r := ResolutionMasks(kind, features, bandInfoList, resolutions);
            forall m :: m in r && m.name == ResolutionMaskName(kind, res) ==>
              var k := FirstAtResolution(bandInfoList, res);
              k.Some? && m.referenceBand == bandInfoList[k.value].information.physicalBand
  {
    var r := ResolutionMasks(kind, features, bandInfoList, resolutions);
    var rest := ResolutionMasks(kind, features, bandInfoList, resolutions[1..]);
    var head := resolutions[0];
    if head != res {
      ResolutionMasksFor(kind, features, bandInfoList, resolutions[1..], res);
      ResolutionMaskNamesDistinct(kind, head, res);
    } else if res in resolutions[1..] {
      ResolutionMasksFor(kind, features, bandInfoList, resolutions[1..], res);
    } else {
      ResolutionMasksOther(kind, features, bandInfoList, resolutions[1..], res);
    }
  }

  /** No version for a resolution outside `resolutions` is produced. */
  lemma {:induction false} ResolutionMasksOther(kind: MaskKind, features: seq<Feature>, bandInfoList: seq<BandInfo>,
                                                resolutions: seq<Resolution>, res: Resolution)
    requires res !in resolutions
    ensures forall m :: m in ResolutionMasks(kind, features, bandInfoList, resolutions) ==>
              m.VectorMask? && m.features == features && m.color == kind.color && m.name != ResolutionMaskName(kind, res)
  {
    if resolutions != [] {
      ResolutionMasksOther(kind, features, bandInfoList, resolutions[1..], res);
      ResolutionMaskNamesDistinct(kind, resolutions[0], res);
    }
  }

  /** The inner loop of `addVectorMask` over one granule's mask files, appending to `productPolygons`. */
  method GatherFilePolygons(files: seq<MaskFilename>, kind: MaskKind, spectral: Option<SpectralBand>, parse: GmlParser,
                            polygons0: seq<EopPolygon>)
    returns (productPolygons: seq<EopPolygon>)
    ensures productPolygons == polygons0 + FilePolygons(files, kind, spectral, parse)
  {
    productPolygons := polygons0;
    var f := 0;
    while f < |files|
      invariant 0 <= f <= |files|
      invariant productPolygons + FilePolygons(files[f..], kind, spectral, parse)
                == polygons0 + FilePolygons(files, kind, spectral, parse)
    {
      assert files[f..][0] == files[f] && files[f..][1..] == files[f + 1..];
      var file := files[f];
      if file.maskType == kind.mainType && (spectral.Some? ==> file.bandId == Decimal(spectral.value.bandId)) {
        var polygonsForTile := OfSubType(parse(file.name), kind.subType);
        ConcatAssoc(productPolygons, polygonsForTile, FilePolygons(files[f + 1..], kind, spectral, parse));
        productPolygons := productPolygons + polygonsForTile;
      }
      f := f + 1;
    }
    assert files[f..] == [];
  }

  /** The outer loop of `addVectorMask` over the granules, building `productPolygons`. */
  method GatherPolygons(tiles: seq<MetadataTile>, kind: MaskKind, spectral: Option<SpectralBand>, parse: GmlParser)
    returns (productPolygons: seq<EopPolygon>)
    ensures productPolygons == ProductPolygons(tiles, kind, spectral, parse)
  {
    productPolygons := [];
    var t := 0;
    while t < |tiles|
      invariant 0 <= t <= |tiles|
      invariant productPolygons + ProductPolygons(tiles[t..], kind, spectral, parse)
                == ProductPolygons(tiles, kind, spectral, parse)
    {
      assert tiles[t..][0] == tiles[t] && tiles[t..][1..] == tiles[t + 1..];
      ConcatAssoc(productPolygons, FilePolygons(tiles[t].maskFilenames, kind, spectral, parse),
                  ProductPolygons(tiles[t + 1..], kind, spectral, parse));
      productPolygons := GatherFilePolygons(tiles[t].maskFilenames, kind, spectral, parse, productPolygons);
      t := t + 1;
    }
    assert tiles[t..] == [];
  }

  /** The loop of `addVectorMask` turning the polygons into the features of the collection. */
  method BuildFeatures(productPolygons: seq<EopPolygon>) returns (collection: seq<Feature>)
    ensures collection == Features(productPolygons)
  {
    collection := [];
    var index := 0;
    while index < |productPolygons|
      invariant 0 <= index <= |productPolygons|
      invariant collection == Features(productPolygons)[..index]
    {
      var feature := Feature(productPolygons[index].polygon, "Polygon-" + Decimal(index), "F-" + Decimal(index));
      assert Features(productPolygons)[..index + 1] == Features(productPolygons)[..index] + [feature];
      collection := collection + [feature];
      index := index + 1;
    }
  }

  /** The inner loop of `addVectorMask`: the physical band of the first listed band at `resolution`, if any. */
  method ReferenceBandAt(bandInfoList: seq<BandInfo>, resolution: Resolution) returns (referenceBand: Option<string>)
    ensures referenceBand.None? <==> FirstAtResolution(bandInfoList, resolution).None?
    ensures referenceBand.Some? ==>
              referenceBand.value == bandInfoList[FirstAtResolution(bandInfoList, resolution).value].information.physicalBand
  {
    referenceBand := None;
    var k := 0;
    while k < |bandInfoList|
      invariant 0 <= k <= |bandInfoList|
      invariant forall i :: 0 <= i < k ==> bandInfoList[i].information.resolution != resolution
      invariant referenceBand.None?
    {
      if bandInfoList[k].information.resolution == resolution {
        referenceBand := Some(bandInfoList[k].information.physicalBand);
        break;
      }
      k := k + 1;
    }
    if referenceBand.Some? {
      assert FirstAtResolution(bandInfoList, resolution) == Some(k);
    }
  }

  /** One step of the resolution loop: the masks from resolution r on are those of r, then the rest. */
  lemma ResolutionMasksStep(kind: MaskKind, features: seq<Feature>, bandInfoList: seq<BandInfo>, resolutions: seq<Resolution>, r: nat)
    requires r < |resolutions|
    ensures var rest := ResolutionMasks(kind, features, bandInfoList, resolutions[r + 1..]);
            match FirstAtResolution(bandInfoList, resolutions[r])
            case None => ResolutionMasks(kind, features, bandInfoList, resolutions[r..]) == rest
            case Some(k) =>
              ResolutionMasks(kind, features, bandInfoList, resolutions[r..])
              == [VectorMask(ResolutionMaskName(kind, resolutions[r]), kind.description, features, kind.color,
                             kind.transparency, bandInfoList[k].information.physicalBand)] + rest
  {
    assert resolutions[r..][0] == resolutions[r] && resolutions[r..][1..] == resolutions[r + 1..];
  }

  /** The loop of `addVectorMask` over the resolutions, for a mask that is not band-specific. */
  method AddResolutionVersions(kind: MaskKind, collection: seq<Feature>, bandInfoList: seq<BandInfo>,
                               resolutions: seq<Resolution>)
    returns (masks: seq<Mask>)
    ensures masks == ResolutionMasks(kind, collection, bandInfoList, resolutions)
  {
    masks := [];
    var r := 0;
    while r < |resolutions|
      invariant 0 <= r <= |resolutions|
      invariant masks + ResolutionMasks(kind, collection, bandInfoList, resolutions[r..])
                == ResolutionMasks(kind, collection, bandInfoList, resolutions)
    {
      var resolution := resolutions[r];
      ResolutionMasksStep(kind, collection, bandInfoList, resolutions, r);
      var referenceBand := ReferenceBandAt(bandInfoList, resolution);
      ghost var rest := ResolutionMasks(kind, collection, bandInfoList, resolutions[r + 1..]);
      if referenceBand.Some? {
        var snapName := kind.snapName + "_" + Decimal(resolution.Meters()) + "m";
        var mask := VectorMask(snapName, kind.description, collection, kind.color, kind.transparency,
                               referenceBand.value);
        assert snapName == ResolutionMaskName(kind, resolution);
        ConcatAssoc(masks, [mask], rest);
        masks := masks + [mask];
      }
      r := r + 1;
    }
    assert resolutions[r..] == [];
  }

  /** `addVectorMask`: gather the polygons, build the features, add the mask versions. */
  method AddVectorMask(tiles: seq<MetadataTile>, kind: MaskKind, spectral: Option<SpectralBand>,
                       bandInfoList: seq<BandInfo>, parse: GmlParser)
    returns (masks: seq<Mask>)
    ensures masks == VectorMaskOf(tiles, kind, spectral, bandInfoList, parse)
  {
    var productPolygons := GatherPolygons(tiles, kind, spectral, parse);
    var collection := BuildFeatures(productPolygons);
    if spectral.None? {
      masks := AddResolutionVersions(kind, collection, bandInfoList, AllResolutions);
    } else {
      var bandName := spectral.value.physicalBand;
      masks := [VectorMask(kind.snapNameForBand(bandName), kind.descriptionForBand(bandName), collection,
                           kind.color, kind.transparency, bandName)];
    }
  }

  /** The spectral bands of the list, in order, as handed to `addVectorMask`. */
  function SpectralBands(bandInfoList: seq<BandInfo>): (r: seq<SpectralBand>)
    ensures |r| <= |bandInfoList|
  {
    if bandInfoList == [] then []
    else
      var info := bandInfoList[0].information;
      var rest := SpectralBands(bandInfoList[1..]);
      if info.kind.Spectral? then [SpectralBand(info.physicalBand, info.kind.bandId)] + rest else rest
  }

  /** The masks of a per-band kind, one `addVectorMask` per spectral band of `bands`. */
  function PerBandMasks(tiles: seq<MetadataTile>, kind: MaskKind, bands: seq<SpectralBand>,
                        bandInfoList: seq<BandInfo>, parse: GmlParser): seq<Mask>
  {
    if bands == [] then []
    else VectorMaskOf(tiles, kind, Some(bands[0]), bandInfoList, parse)
         + PerBandMasks(tiles, kind, bands[1..], bandInfoList, parse)
  }

  /** The masks one kind contributes at mask level `level`. */
  function KindMasks(kind: MaskKind, level: int, tiles: seq<MetadataTile>, bandInfoList: seq<BandInfo>, parse: GmlParser)
    : seq<Mask>
  {
    if !kind.presentAtLevel(level) then []
    else if !kind.perBand then VectorMaskOf(tiles, kind, None, bandInfoList, parse)
    else PerBandMasks(tiles, kind, SpectralBands(bandInfoList), bandInfoList, parse)
  }

  /** `addVectorMasks`: the masks of every kind in `kinds`, in kind order. */
  function VectorMasks(kinds: seq<MaskKind>, level: int, tiles: seq<MetadataTile>, bandInfoList: seq<BandInfo>,
                       parse: GmlParser): seq<Mask>
  {
    if kinds == [] then []
    else KindMasks(kinds[0], level, tiles, bandInfoList, parse) + VectorMasks(kinds[1..], level, tiles, bandInfoList, parse)
  }

  /**
   * A per-band kind yields exactly one mask per spectral band, in band order,
   * named and described for that band and holding the polygons of that band's
   * mask files.
   */
  lemma {:induction false} PerBandMasksShape(tiles: seq<MetadataTile>, kind: MaskKind, bands: seq<SpectralBand>,
                                             bandInfoList: seq<BandInfo>, parse: GmlParser)
    ensures var r := PerBandMasks(tiles, kind, bands, bandInfoList, parse);
            && |r| == |bands|
            && forall i :: 0 <= i < |bands| ==>
                 r[i] == VectorMask(kind.snapNameForBand(bands[i].physicalBand),
                                    kind.descriptionForBand(bands[i].physicalBand),
                                    Features(ProductPolygons(tiles, kind, Some(bands[i]), parse)),
                                    kind.color, kind.transparency, bands[i].physicalBand)
  {
    if bands != [] {
      PerBandMasksShape(tiles, kind, bands[1..], bandInfoList, parse);
      var r := PerBandMasks(tiles, kind, bands, bandInfoList, parse);
      forall i | 1 <= i < |bands|
        ensures r[i] == PerBandMasks(tiles, kind, bands[1..], bandInfoList, parse)[i - 1]
      {
      }
    }
  }

  /** The spectral bands handed over are exactly the bands of the list whose information is spectral. */
  lemma {:induction false} SpectralBandsMembership(bandInfoList: seq<BandInfo>, band: SpectralBand)
    ensures band in SpectralBands(bandInfoList) <==>
              exists i :: 0 <= i < |bandInfoList| && bandInfoList[i].information.kind == Spectral(band.bandId)
                          && bandInfoList[i].information.physicalBand == band.physicalBand
  {
    if bandInfoList != [] {
      SpectralBandsMembership(bandInfoList[1..], band);
      if exists i :: 0 <= i < |bandInfoList| && bandInfoList[i].information.kind == Spectral(band.bandId)
                     && bandInfoList[i].information.physicalBand == band.physicalBand {
        var i :| 0 <= i < |bandInfoList| && bandInfoList[i].information.kind == Spectral(band.bandId)
                 && bandInfoList[i].information.physicalBand == band.physicalBand;
        if i > 0 {
          assert bandInfoList[1..][i - 1] == bandInfoList[i];
        }
      }
      if exists i :: 0 <= i < |bandInfoList| - 1 && bandInfoList[1..][i].information.kind == Spectral(band.bandId)
                     && bandInfoList[1..][i].information.physicalBand == band.physicalBand {
        var i :| 0 <= i < |bandInfoList| - 1 && bandInfoList[1..][i].information.kind == Spectral(band.bandId)
                 && bandInfoList[1..][i].information.physicalBand == band.physicalBand;
        assert bandInfoList[1..][i] == bandInfoList[i + 1];
      }
    }
  }

  /** Kinds absent at the mask level contribute nothing; the others contribute in kind order. */
  lemma {:induction false} VectorMasksAbsentKinds(kinds: seq<MaskKind>, level: int, tiles: seq<MetadataTile>,
                                                  bandInfoList: seq<BandInfo>, parse: GmlParser)
    requires forall i :: 0 <= i < |kinds| ==> !kinds[i].presentAtLevel(level)
    ensures VectorMasks(kinds, level, tiles, bandInfoList, parse) == []
  {
    if kinds != [] {
      VectorMasksAbsentKinds(kinds[1..], level, tiles, bandInfoList, parse);
    }
  }

  /** The loop of `addVectorMasks` over the band list for a per-band kind. */
  method AddPerBandMasks(tiles: seq<MetadataTile>, kind: MaskKind, bandInfoList: seq<BandInfo>, parse: GmlParser,
                         masks0: seq<Mask>)
    returns (masks: seq<Mask>)
    ensures masks == masks0 + PerBandMasks(tiles, kind, SpectralBands(bandInfoList), bandInfoList, parse)
  {
    masks := masks0;
    var b := 0;
    while b < |bandInfoList|
      invariant 0 <= b <= |bandInfoList|
      invariant masks + PerBandMasks(tiles, kind, SpectralBands(bandInfoList[b..]), bandInfoList, parse)
                == masks0 + PerBandMasks(tiles, kind, SpectralBands(bandInfoList), bandInfoList, parse)
    {
      assert bandInfoList[b..][0] == bandInfoList[b] && bandInfoList[b..][1..] == bandInfoList[b + 1..];
      var info := bandInfoList[b].information;
      if info.kind.Spectral? {
        var band := SpectralBand(info.physicalBand, info.kind.bandId);
        assert SpectralBands(bandInfoList[b..]) == [band] + SpectralBands(bandInfoList[b + 1..]);
        var added := AddVectorMask(tiles, kind, Some(band), bandInfoList, parse);
        masks := masks + added;
      }
      b := b + 1;
    }
    assert bandInfoList[b..] == [];
  }

  /** The body of the loop of `addVectorMasks` for one kind. */
  method AddKindMasks(kind: MaskKind, level: int, tiles: seq<MetadataTile>, bandInfoList: seq<BandInfo>,
                      parse: GmlParser, masks0: seq<Mask>)
    returns (masks: seq<Mask>)
    ensures masks == masks0 + KindMasks(kind, level, tiles, bandInfoList, parse)
  {
    masks := masks0;
    if kind.presentAtLevel(level) {
      if !kind.perBand {
        var added := AddVectorMask(tiles, kind, None, bandInfoList, parse);
        masks := masks + added;
      } else {
        masks := AddPerBandMasks(tiles, kind, bandInfoList, parse, masks);
      }
    }
  }

  /** One step of the kind loop: the masks of the kinds from `m` on are those of kind `m`, then the rest. */
  lemma VectorMasksStep(kinds: seq<MaskKind>, m: nat, level: int, tiles: seq<MetadataTile>, bandInfoList: seq<BandInfo>,
                        parse: GmlParser)
    requires m < |kinds|
    ensures VectorMasks(kinds[m..], level, tiles, bandInfoList, parse)
            == KindMasks(kinds[m], level, tiles, bandInfoList, parse) + VectorMasks(kinds[m + 1..], level, tiles, bandInfoList, parse)
  {
    assert kinds[m..][0] == kinds[m] && kinds[m..][1..] == kinds[m + 1..];
  }

  /** `addVectorMasks`: visit the kinds in order, skipping those absent at the mask level. */
  method AddVectorMasks(kinds: seq<MaskKind>, level: int, tiles: seq<MetadataTile>, bandInfoList: seq<BandInfo>,
                        parse: GmlParser, masks0: seq<Mask>)
    returns (masks: seq<Mask>)
    ensures masks == masks0 + VectorMasks(kinds, level, tiles, bandInfoList, parse)
  {
    masks := masks0;
    var m := 0;
    while m < |kinds|
      invariant 0 <= m <= |kinds|
      invariant masks + VectorMasks(kinds[m..], level, tiles, bandInfoList, parse)
                == masks0 + VectorMasks(kinds, level, tiles, bandInfoList, parse)
    {
      VectorMasksStep(kinds, m, level, tiles, bandInfoList, parse);
      ghost var before := masks;
      masks := AddKindMasks(kinds[m], level, tiles, bandInfoList, parse, masks);
      ConcatAssoc(before, KindMasks(kinds[m], level, tiles, bandInfoList, parse),
                  VectorMasks(kinds[m + 1..], level, tiles, bandInfoList, parse));
      m := m + 1;
    }
    assert kinds[m..] == [];
  }
}
