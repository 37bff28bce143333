/**
 * `S2L1CGranuleImageFilename`: the name of a Level-1C granule image file, as
 * recognised by an anchored regular expression whose groups are all of fixed
 * width except an optional trailing extension.
 *
 * Every character class of that expression is written with '|' between its
 * ranges, which inside brackets is a literal '|': the classes below accept it.
 */
module GranuleImageFilename {
  import opened Wrappers

  /**
   * The parsed name, with the ten groups in the order they are handed to the
   * constructor. Groups 7 to 9 keep their "_A", "_T" and "_B" markers and
   * group 10 its '.'; a missing group 10 is null.
   */
  datatype ImageFilename = ImageFilename(
    name: string,
    missionID: string,
    fileClass: string,
    fileCategory: string,
    fileSemantic: string,
    siteCentre: string,
    creationDate: string,
    instanceID: string,
    absoluteOrbit: string,
    tileNumber: string,
    bandIndex: Option<string>)

  predicate IsDigit(c: char) { '0' <= c <= '9' }

  /** `[A-Z|0-9]` */
  predicate InCodeClass(c: char) { 'A' <= c <= 'Z' || c == '|' || IsDigit(c) }

  /** `[A-Z|0-9|_]` */
  predicate InFieldClass(c: char) { InCodeClass(c) || c == '_' }

  /** `[A-B|0-9]` */
  predicate InBandClass(c: char) { 'A' <= c <= 'B' || c == '|' || IsDigit(c) }

  /** `[A-Z|a-z|0-9]` */
  predicate InExtensionClass(c: char) { InCodeClass(c) || 'a' <= c <= 'z' }

  predicate AllIn(s: string, inClass: char -> bool)
  {
    forall i :: 0 <= i < |s| ==> inClass(s[i])
  }

  /** Group 1: `S2A|S2B|S2_`. */
  predicate MissionGroup(g: string) { g == "S2A" || g == "S2B" || g == "S2_" }

  /** Group 2: `[A-Z|0-9]{4}`. */
  predicate ClassGroup(g: string) { |g| == 4 && AllIn(g, InCodeClass) }

  /** Groups 3 and 5 (`[A-Z|0-9|_]{4}`) and group 4 (`[A-Z|0-9|_]{6}`). */
  predicate FieldGroup(g: string, width: nat) { |g| == width && AllIn(g, InFieldClass) }

  /** Group 6: `[0-9]{8}T[0-9]{6}`. */
  predicate DateGroup(g: string)
  {
    |g| == 15 && AllIn(g[..8], IsDigit) && g[8] == 'T' && AllIn(g[9..], IsDigit)
  }

  /** A group made of a two-character marker followed by `width` characters of a class. */
  predicate MarkedGroup(g: string, marker: string, width: nat, inClass: char -> bool)
  {
    |g| == |marker| + width && g[..|marker|] == marker && AllIn(g[|marker|..], inClass)
  }

  /** Group 10, when present: `\.[A-Z|a-z|0-9]{3,4}`. */
  predicate ExtensionGroup(g: string)
  {
    (|g| == 4 || |g| == 5) && g[0] == '.' && AllIn(g[1..], InExtensionClass)
  }

  /** The fields of a parsed name each match their group. */
  predicate WellFormed(f: ImageFilename)
  {
    && MissionGroup(f.missionID)
    && ClassGroup(f.fileClass)
    && FieldGroup(f.fileCategory, 4)
    && FieldGroup(f.fileSemantic, 6)
    && FieldGroup(f.siteCentre, 4)
    && DateGroup(f.creationDate)
    && MarkedGroup(f.instanceID, "_A", 6, IsDigit)
    && MarkedGroup(f.absoluteOrbit, "_T", 5, InCodeClass)
    && MarkedGroup(f.tileNumber, "_B", 2, InBandClass)
    && (f.bandIndex.Some? ==> ExtensionGroup(f.bandIndex.value))
  }

  /** The text of group 10, empty when the group is absent. */
  function ExtensionText(f: ImageFilename): string
  {
    match f.bandIndex
    case Some(ext) => ext
    case None => ""
  }

  /** The name the groups spell, separators included. */
  function Format(f: ImageFilename): (s: string)
    ensures WellFormed(f) ==> |s| == 59 + |ExtensionText(f)|
  {
    f.missionID + ("_" + (f.fileClass + ("_" + (f.fileCategory + (f.fileSemantic + ("_" + (f.siteCentre + ("_"
    + (f.creationDate + (f.instanceID + (f.absoluteOrbit + (f.tileNumber + ExtensionText(f)))))))))))))
  }

  /** The groups at their fixed positions; group 10 is whatever follows position 59. */
  function Groups(s: string): ImageFilename
    requires |s| >= 59
  {
    ImageFilename(s, s[0..3], s[4..8], s[9..13], s[13..19], s[20..24], s[25..40],
                  s[40..48], s[48..55], s[55..59], if |s| == 59 then None else Some(s[59..]))
  }

  /** `PATTERN.matcher(name).matches()`: the whole name matches the expression. */
  predicate IsImageFilename(s: string)
  {
    && |s| >= 59
    && s[3] == '_' && s[8] == '_' && s[19] == '_' && s[24] == '_'
    && WellFormed(Groups(s))
  }

  /** `create`: the parsed name when the whole name matches, null otherwise. */
  function Create(fileName: string): (r: Option<ImageFilename>)
    ensures r.Some? <==> IsImageFilename(fileName)
    ensures r.Some? ==> r.value.name == fileName && WellFormed(r.value)
  {
    if IsImageFilename(fileName) then Some(Groups(fileName)) else None
  }

  /** A matching name is 59 characters long, or 63 or 64 with an extension. */
  lemma MatchLength(s: string)
    requires IsImageFilename(s)
    ensures |s| == 59 || |s| == 63 || |s| == 64
    ensures |s| == 59 <==> Create(s).value.bandIndex.None?
  {
  }

  /** The mission is one of the three the expression lists. */
  lemma MissionOfMatch(s: string)
    requires IsImageFilename(s)
    ensures var m := Create(s).value.missionID;
            m == "S2A" || m == "S2B" || m == "S2_"
    ensures s[..3] == Create(s).value.missionID
  {
  }

  /**
   * The groups are handed over by position: the orbit group ("_A...") lands
   * in `instanceID`, the tile group ("_T...") in `absoluteOrbit`, the band
   * group ("_B...") in `tileNumber` and the extension in `bandIndex`.
   */
  lemma PositionalFields(s: string)
    requires IsImageFilename(s)
    ensures var f := Create(s).value;
            && f.instanceID[..2] == "_A" && f.absoluteOrbit[..2] == "_T" && f.tileNumber[..2] == "_B"
            && (f.bandIndex.Some? ==> f.bandIndex.value[0] == '.')
  {
  }

  /** Splitting a suffix of `s` at position `j`. */
  lemma Split(s: string, i: nat, j: nat)
    requires i <= j <= |s|
    ensures s[i..] == s[i..j] + s[j..]
  {
  }

  /** Parsing and formatting: the groups spell the name back, and the name is kept verbatim. */
  lemma {:induction false} FormatCreate(s: string)
    requires IsImageFilename(s)
    ensures Format(Create(s).value) == s && Create(s).value.name == s
  {
    var f := Groups(s);
    assert ExtensionText(f) == s[59..];
    Split(s, 55, 59);
    Split(s, 48, 55);
    Split(s, 40, 48);
    Split(s, 25, 40);
    Split(s, 24, 25);
    assert s[24..25] == "_";
    Split(s, 20, 24);
    Split(s, 19, 20);
    assert s[19..20] == "_";
    Split(s, 13, 19);
    Split(s, 9, 13);
    Split(s, 8, 9);
    assert s[8..9] == "_";
    Split(s, 4, 8);
    Split(s, 3, 4);
    assert s[3..4] == "_";
    Split(s, 0, 3);
    assert s[0..] == s;
  }

  /** Where a suffix of `s` starts with `a`, the slice of `s` of `a`'s length there is `a`. */
  lemma Piece(s: string, off: nat, a: string, r: string)
    requires off <= |s| && s[off..] == a + r
    ensures off + |a| <= |s| && s[off..off + |a|] == a && s[off + |a|..] == r
  {
    assert s[off..off + |a|] == s[off..][..|a|];
    assert s[off + |a|..] == s[off..][|a|..];
  }

  /** The part of the formatted name from the site centre on. */
  function FormatBack(f: ImageFilename): string
  {
    f.siteCentre + ("_" + (f.creationDate + FormatTail(f)))
  }

  /** The part of the formatted name from the orbit group on. */
  function FormatTail(f: ImageFilename): string
  {
    f.instanceID + (f.absoluteOrbit + (f.tileNumber + ExtensionText(f)))
  }

  /** The first 20 characters of a formatted name hold the first four groups and their separators. */
  lemma {:induction false} FormatFrontSlices(f: ImageFilename)
    requires WellFormed(f)
    ensures var s := Format(f);
            && |s| >= 59
            && s[0..3] == f.missionID && s[3] == '_' && s[4..8] == f.fileClass && s[8] == '_'
            && s[9..13] == f.fileCategory && s[13..19] == f.fileSemantic && s[19] == '_'
            && s[20..] == FormatBack(f)
  {
    var s := Format(f);
    var r7 := FormatBack(f);
    var r6 := "_" + r7;
    var r5 := f.fileSemantic + r6;
    var r4 := f.fileCategory + r5;
    var r3 := "_" + r4;
    var r2 := f.fileClass + r3;
    var r1 := "_" + r2;
    assert s[0..] == s == f.missionID + r1;
    Piece(s, 0, f.missionID, r1);
    Piece(s, 3, "_", r2);
    Piece(s, 4, f.fileClass, r3);
    Piece(s, 8, "_", r4);
    Piece(s, 9, f.fileCategory, r5);
    Piece(s, 13, f.fileSemantic, r6);
    Piece(s, 19, "_", r7);
    assert s[3..4][0] == s[3];
    assert s[8..9][0] == s[8];
    assert s[19..20][0] == s[19];
  }

  /** The back part holds the site centre, a separator and the date at their fixed offsets, then the tail. */
  lemma {:induction false} FormatBackSlices(f: ImageFilename)
    requires WellFormed(f)
    ensures var b := FormatBack(f);
            && |b| >= 20
            && b[0..4] == f.siteCentre && b[4] == '_' && b[5..20] == f.creationDate
            && b[20..] == FormatTail(f)
  {
    var b := FormatBack(f);
    var r10 := FormatTail(f);
    var r9 := f.creationDate + r10;
    var r8 := "_" + r9;
    assert b[0..] == b == f.siteCentre + r8;
    Piece(b, 0, f.siteCentre, r8);
    Piece(b, 4, "_", r9);
    Piece(b, 5, f.creationDate, r10);
    assert b[4..5][0] == b[4];
  }

  /** The tail holds the orbit, tile and band groups at their fixed offsets, then the extension. */
  lemma {:induction false} FormatTailSlices(f: ImageFilename)
    requires WellFormed(f)
    ensures var t := FormatTail(f);
            && |t| >= 19
            && t[0..8] == f.instanceID && t[8..15] == f.absoluteOrbit && t[15..19] == f.tileNumber
            && t[19..] == ExtensionText(f)
  {
    var t := FormatTail(f);
    var ext := ExtensionText(f);
    var r12 := f.tileNumber + ext;
    var r11 := f.absoluteOrbit + r12;
    assert t[0..] == t == f.instanceID + r11;
    Piece(t, 0, f.instanceID, r11);
    Piece(t, 8, f.absoluteOrbit, r12);
    Piece(t, 15, f.tileNumber, ext);
  }

  /** Formatting and parsing: well-formed groups are recovered from the name they spell. */
  lemma {:induction false} CreateFormat(f: ImageFilename)
    requires WellFormed(f)
    ensures Create(Format(f)) == Some(f.(name := Format(f)))
  {
    var s := Format(f);
    FormatFrontSlices(f);
    FormatBackSlices(f);
    FormatTailSlices(f);
    var b := s[20..];
    var t := b[20..];
    assert s[20..24] == b[0..4] && s[24] == b[4] && s[25..40] == b[5..20];
    assert t == s[40..];
    assert s[40..48] == t[0..8] && s[48..55] == t[8..15] && s[55..59] == t[15..19] && s[59..] == t[19..];
    assert Groups(s) == f.(name := s);
  }

  /** Groups of a name with '|' inside the class-coded fields 2, 8 and 9. */
  const BarExample := ImageFilename("", "S2A", "OP|R", "MSI_", "L1C_TL", "SGS_", "20160101T120000",
                                    "_A002722", "_T32|QM", "_B|2", Some(".jp2"))

  // Proof steps of BarIsAccepted: the groups of BarExample, a few at a time.

  lemma BarExampleCodes()
    ensures ClassGroup(BarExample.fileClass) && FieldGroup(BarExample.fileCategory, 4)
  {
    var f := BarExample;
    assert ClassGroup(f.fileClass) by {
      assert f.fileClass[0] == 'O' && f.fileClass[1] == 'P' && f.fileClass[2] == '|' && f.fileClass[3] == 'R';
    }
    assert FieldGroup(f.fileCategory, 4) by {
      assert f.fileCategory[0] == 'M' && f.fileCategory[1] == 'S' && f.fileCategory[2] == 'I' && f.fileCategory[3] == '_';
    }
  }

  lemma BarExampleFields()
    ensures FieldGroup(BarExample.fileSemantic, 6) && FieldGroup(BarExample.siteCentre, 4)
  {
    var f := BarExample;
    assert FieldGroup(f.fileSemantic, 6) by {
      assert f.fileSemantic[0] == 'L' && f.fileSemantic[1] == '1' && f.fileSemantic[2] == 'C';
      assert f.fileSemantic[3] == '_' && f.fileSemantic[4] == 'T' && f.fileSemantic[5] == 'L';
    }
    assert FieldGroup(f.siteCentre, 4) by {
      assert f.siteCentre[0] == 'S' && f.siteCentre[1] == 'G' && f.siteCentre[2] == 'S' && f.siteCentre[3] == '_';
    }
  }

  lemma BarExampleDate()
    ensures DateGroup(BarExample.creationDate) && MarkedGroup(BarExample.instanceID, "_A", 6, IsDigit)
  {
  }

  lemma BarExampleMarks()
    ensures MarkedGroup(BarExample.absoluteOrbit, "_T", 5, InCodeClass)
    ensures MarkedGroup(BarExample.tileNumber, "_B", 2, InBandClass)
    ensures ExtensionGroup(BarExample.bandIndex.value)
  {
  }

  /**
   * A name with '|' inside the class-coded fields is accepted, as the
   * bracketed '|' allows, and its groups are read back.
   */
  lemma BarIsAccepted()
    ensures IsImageFilename(Format(BarExample))
    ensures Create(Format(BarExample)).value.fileClass == "OP|R"
    ensures Create(Format(BarExample)).value.absoluteOrbit == "_T32|QM"
  {
    BarExampleCodes();
    BarExampleFields();
    BarExampleDate();
    BarExampleMarks();
    CreateFormat(BarExample);
  }
}
