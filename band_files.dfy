/**
 * The band-file-map part of `getMosaicProduct`: which granules are read (all
 * of them, or in granule mode the one matching the filter), which image file
 * each band has in each granule, and which bands are kept.
 *
 * The granule directory name parser (`S2OrthoGranuleDirFilename.create`) and
 * the file system (`File.exists`) are parameters.
 */
module BandFiles {
  import opened Wrappers
  import opened Text
  import opened Geometry
  import opened Product

  /** The fields of a parsed granule directory name used by the image file templates. */
  datatype GranuleDirFields = GranuleDirFields(
    missionID: string, siteCentre: string, creationDate: string, absoluteOrbit: string, tileNumber: string)

  /** `File.separator`, taken to be the Unix one. */
  const Separator: char := '/'

  /** What the loop consults outside the metadata: the directory name parser and the file system. */
  datatype Environment = Environment(
    productDir: FilePath,
    parseGranuleDir: TileId -> Option<GranuleDirFields>,
    fileExists: FilePath -> bool,
    tileLayout: Resolution -> TileLayout)

  /** In granule mode the tile list keeps, in order, the tiles whose id equals the filter ignoring case. */
  function FilterTiles(tileIds: seq<TileId>, isAGranule: bool, aFilter: string): (r: seq<TileId>)
    ensures !isAGranule ==> r == tileIds
    ensures |r| <= |tileIds|
    ensures forall id :: id in r <==> id in tileIds && (isAGranule ==> EqualsIgnoreCase(id, aFilter))
  {
    if !isAGranule || tileIds == [] then tileIds
    else
      var rest := FilterTiles(tileIds[1..], isAGranule, aFilter);
      if EqualsIgnoreCase(tileIds[0], aFilter) then [tileIds[0]] + rest else rest
  }

  /** A single tile is kept exactly when it passes the filter. */
  lemma FilterTilesSingle(tileId: TileId, isAGranule: bool, aFilter: string)
    ensures FilterTiles([tileId], isAGranule, aFilter)
            == if !isAGranule || EqualsIgnoreCase(tileId, aFilter) then [tileId] else []
  {
    assert [tileId][1..] == [];
  }

  /**
   * The filter works tile by tile: filtering a concatenation is filtering
   * each part, so the kept tiles stay in their order and keep their repeats.
   */
  lemma {:induction false} FilterTilesAppend(a: seq<TileId>, b: seq<TileId>, isAGranule: bool, aFilter: string)
    ensures FilterTiles(a + b, isAGranule, aFilter) == FilterTiles(a, isAGranule, aFilter) + FilterTiles(b, isAGranule, aFilter)
  {
    if a == [] {
      assert a + b == b;
    } else if isAGranule {
      assert (a + b)[0] == a[0] && (a + b)[1..] == a[1..] + b;
      FilterTilesAppend(a[1..], b, isAGranule, aFilter);
    }
  }

  /** The image file template with each placeholder replaced, in the order the code applies them. */
  function SubstituteTemplate(template: string, gf: GranuleDirFields, res: Resolution): string
  {
    Replace(Replace(Replace(Replace(Replace(Replace(template,
      "{{MISSION_ID}}", gf.missionID),
      "{{SITECENTRE}}", gf.siteCentre),
      "{{CREATIONDATE}}", gf.creationDate),
      "{{ABSOLUTEORBIT}}", gf.absoluteOrbit),
      "{{TILENUMBER}}", gf.tileNumber),
      "{{RESOLUTION}}", Decimal(res.Meters()))
  }

  /** A template without any '{' has no placeholder and is used as it is. */
  lemma TemplateWithoutPlaceholders(template: string, gf: GranuleDirFields, res: Resolution)
    requires '{' !in template
    ensures SubstituteTemplate(template, gf, res) == template
  {
    FirstCharAbsent("{{MISSION_ID}}", template);
    ReplaceAbsent(template, "{{MISSION_ID}}", gf.missionID);
    FirstCharAbsent("{{SITECENTRE}}", template);
    ReplaceAbsent(template, "{{SITECENTRE}}", gf.siteCentre);
    FirstCharAbsent("{{CREATIONDATE}}", template);
    ReplaceAbsent(template, "{{CREATIONDATE}}", gf.creationDate);
    FirstCharAbsent("{{ABSOLUTEORBIT}}", template);
    ReplaceAbsent(template, "{{ABSOLUTEORBIT}}", gf.absoluteOrbit);
    FirstCharAbsent("{{TILENUMBER}}", template);
    ReplaceAbsent(template, "{{TILENUMBER}}", gf.tileNumber);
    FirstCharAbsent("{{RESOLUTION}}", template);
    ReplaceAbsent(template, "{{RESOLUTION}}", Decimal(res.Meters()));
  }

  /**
   * "GRANULE/<tile id>/<substituted template>", below the product directory:
   * the file lies in the granule's own directory, and a template without
   * placeholders is the file name as it stands.
   */
  function ImageFile(env: Environment, tileId: TileId, gf: GranuleDirFields, band: BandInformation): (f: FilePath)
    ensures IsPrefix(env.productDir + [Separator] + "GRANULE" + [Separator] + tileId + [Separator], f)
    ensures '{' !in band.imageFileTemplate ==> f[|env.productDir| + 10 + |tileId|..] == band.imageFileTemplate
  {
    var dir := env.productDir + [Separator] + "GRANULE" + [Separator] + tileId + [Separator];
    var imgFilename := "GRANULE" + [Separator] + tileId + [Separator] + SubstituteTemplate(band.imageFileTemplate, gf, band.resolution);
    var f := env.productDir + [Separator] + imgFilename;
    assert f == dir + SubstituteTemplate(band.imageFileTemplate, gf, band.resolution) && |dir| == |env.productDir| + 10 + |tileId|;
    assert '{' !in band.imageFileTemplate ==> SubstituteTemplate(band.imageFileTemplate, gf, band.resolution) == band.imageFileTemplate by {
      if '{' !in band.imageFileTemplate {
        TemplateWithoutPlaceholders(band.imageFileTemplate, gf, band.resolution);
      }
    }
    f
  }

  /** The file of `band` in granule `tileId`, if its directory name parses and the file exists. */
  function TileFile(env: Environment, tileId: TileId, band: BandInformation): Option<FilePath>
  {
    match env.parseGranuleDir(tileId)
    case None => None
    case Some(gf) =>
      var file := ImageFile(env, tileId, gf, band);
      if env.fileExists(file) then Some(file) else None
  }

  /** The `tileFileMap` of `band` over the tiles `tileIds`. */
  function TileFileMap(env: Environment, tileIds: seq<TileId>, band: BandInformation): map<TileId, FilePath>
  {
    map id | id in tileIds && TileFile(env, id, band).Some? :: TileFile(env, id, band).value
  }

  /** The map holds exactly the tiles whose directory name parses and whose image file exists, with that file. */
  lemma TileFileMapContents(env: Environment, tileIds: seq<TileId>, band: BandInformation, id: TileId)
    ensures id in TileFileMap(env, tileIds, band) <==>
              && id in tileIds
              && env.parseGranuleDir(id).Some?
              && env.fileExists(ImageFile(env, id, env.parseGranuleDir(id).value, band))
    ensures id in TileFileMap(env, tileIds, band) ==>
              TileFileMap(env, tileIds, band)[id] == ImageFile(env, id, env.parseGranuleDir(id).value, band)
  {
  }

  /** The `bandInfoList`: one entry per band with at least one file, in band order. */
  function BandInfoList(env: Environment, bands: seq<BandInformation>, tileIds: seq<TileId>): (r: seq<BandInfo>)
    ensures |r| <= |bands|
  {
    if bands == [] then []
    else
      var m := TileFileMap(env, tileIds, bands[0]);
      var rest := BandInfoList(env, bands[1..], tileIds);
      if m != map[] then [BandInfo(bands[0], m, env.tileLayout(bands[0].resolution))] + rest else rest
  }

  /**
   * A band is in the list exactly when some tile has a file for it; every
   * entry carries its band's file map and the tile layout of its resolution.
   */
  lemma {:induction false} BandInfoListMembership(env: Environment, bands: seq<BandInformation>, tileIds: seq<TileId>)
    ensures forall b :: b in BandInfoList(env, bands, tileIds) ==>
              && b.information in bands
              && b.tileFiles == TileFileMap(env, tileIds, b.information) != map[]
              && b.layout == env.tileLayout(b.information.resolution)
    ensures forall info :: info in bands && TileFileMap(env, tileIds, info) != map[] ==>
              BandInfo(info, TileFileMap(env, tileIds, info), env.tileLayout(info.resolution)) in BandInfoList(env, bands, tileIds)
  {
    if bands != [] {
      BandInfoListMembership(env, bands[1..], tileIds);
    }
  }

  /** The list of a concatenation of bands is the concatenation of the lists. */
  lemma {:induction false} BandInfoListAppend(env: Environment, a: seq<BandInformation>, b: seq<BandInformation>, tileIds: seq<TileId>)
    ensures BandInfoList(env, a + b, tileIds) == BandInfoList(env, a, tileIds) + BandInfoList(env, b, tileIds)
  {
    if a == [] {
      assert a + b == b;
    } else {
      assert (a + b)[0] == a[0] && (a + b)[1..] == a[1..] + b;
      BandInfoListAppend(env, a[1..], b, tileIds);
    }
  }

  /**
   * A band with a file sits in the list right after the entries of the bands
   * before it, with its own file map and layout.
   */
  lemma BandInfoListPosition(env: Environment, bands: seq<BandInformation>, tileIds: seq<TileId>, j: nat)
    requires j < |bands| && TileFileMap(env, tileIds, bands[j]) != map[]
    ensures var r := BandInfoList(env, bands, tileIds);
            var k := |BandInfoList(env, bands[..j], tileIds)|;
            k < |r| && r[k] == BandInfo(bands[j], TileFileMap(env, tileIds, bands[j]), env.tileLayout(bands[j].resolution))
  {
    assert bands == bands[..j] + bands[j..];
    BandInfoListAppend(env, bands[..j], bands[j..], tileIds);
    assert bands[j..][0] == bands[j];
  }

  /** Kept bands keep their relative order. */
  lemma BandInfoListOrder(env: Environment, bands: seq<BandInformation>, tileIds: seq<TileId>, i: nat, j: nat)
    requires i < j <= |bands| && TileFileMap(env, tileIds, bands[i]) != map[]
    ensures |BandInfoList(env, bands[..i], tileIds)| < |BandInfoList(env, bands[..j], tileIds)|
  {
    assert bands[..j] == bands[..i] + bands[i..j];
    BandInfoListAppend(env, bands[..i], bands[i..j], tileIds);
    assert bands[i..j][0] == bands[i];
  }

  /** One tile of the loop: the image file, when the directory name parses and the file exists. */
  method FindTileFile(env: Environment, id: TileId, band: BandInformation) returns (file: Option<FilePath>)
    ensures file == TileFile(env, id, band)
  {
    var gf := env.parseGranuleDir(id);
    if gf.None? {
      return None;
    }
    var imgFilename := "GRANULE" + [Separator] + id + [Separator]
                       + Replace(Replace(Replace(Replace(Replace(Replace(band.imageFileTemplate,
                           "{{MISSION_ID}}", gf.value.missionID),
                           "{{SITECENTRE}}", gf.value.siteCentre),
                           "{{CREATIONDATE}}", gf.value.creationDate),
                           "{{ABSOLUTEORBIT}}", gf.value.absoluteOrbit),
                           "{{TILENUMBER}}", gf.value.tileNumber),
                           "{{RESOLUTION}}", Decimal(band.resolution.Meters()));
    var path := env.productDir + [Separator] + imgFilename;
    file := if env.fileExists(path) then Some(path) else None;
  }

  /** Visiting one more tile adds its file, if it has one, and changes nothing else. */
  lemma TileFileMapStep(env: Environment, tileIds: seq<TileId>, t: nat, band: BandInformation)
    requires t < |tileIds|
    ensures var id := tileIds[t];
            var before := TileFileMap(env, tileIds[..t], band);
            TileFileMap(env, tileIds[..t + 1], band)
            == if TileFile(env, id, band).Some? then before[id := TileFile(env, id, band).value] else before
  {
    var id := tileIds[t];
    assert tileIds[..t + 1] == tileIds[..t] + [id];
  }

  /** The loop over the tiles of one band, filling `tileFileMap`. */
  method BuildTileFileMap(env: Environment, tileIds: seq<TileId>, band: BandInformation)
    returns (tileFileMap: map<TileId, FilePath>)
    ensures tileFileMap == TileFileMap(env, tileIds, band)
  {
    tileFileMap := map[];
    var t := 0;
    while t < |tileIds|
      invariant 0 <= t <= |tileIds|
      invariant tileFileMap == TileFileMap(env, tileIds[..t], band)
    {
      TileFileMapStep(env, tileIds, t, band);
      var file := FindTileFile(env, tileIds[t], band);
      if file.Some? {
        tileFileMap := tileFileMap[tileIds[t] := file.value];
      }
      t := t + 1;
    }
    assert tileIds[..t] == tileIds;
  }

  /** The loop over the bands of the product, filling `bandInfoList`. */
  method BuildBandInfoList(env: Environment, bands: seq<BandInformation>, tileIds: seq<TileId>)
    returns (bandInfoList: seq<BandInfo>)
    ensures bandInfoList == BandInfoList(env, bands, tileIds)
  {
    bandInfoList := [];
    var i := 0;
    while i < |bands|
      invariant 0 <= i <= |bands|
      invariant bandInfoList + BandInfoList(env, bands[i..], tileIds) == BandInfoList(env, bands, tileIds)
    {
      assert bands[i..][0] == bands[i] && bands[i..][1..] == bands[i + 1..];
      var tileFileMap := BuildTileFileMap(env, tileIds, bands[i]);
      if tileFileMap != map[] {
        bandInfoList := bandInfoList + [BandInfo(bands[i], tileFileMap, env.tileLayout(bands[i].resolution))];
      }
      i := i + 1;
    }
  }

  /** The band-file-map part of `getMosaicProduct`: filter the tiles, then build the band list. */
  method BandInfosOfProduct(env: Environment, bands: seq<BandInformation>, tileIds: seq<TileId>,
                            isAGranule: bool, aFilter: string)
    returns (bandInfoList: seq<BandInfo>)
    ensures bandInfoList == BandInfoList(env, bands, FilterTiles(tileIds, isAGranule, aFilter))
  {
    var tileList := tileIds;
    if isAGranule {
      tileList := FilterTiles(tileIds, isAGranule, aFilter);
    }
    bandInfoList := BuildBandInfoList(env, bands, tileList);
  }
}
