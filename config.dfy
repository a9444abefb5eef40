/**
 * The per-directory configuration of the wrapper (`wmts_wrapper_conf`) and its merge,
 * the role a directory plays in the REST path, the MIME/extension check, the date
 * pattern the role gets compiled with, and the tile back-end whose configuration the
 * tile-matrix-set pass reads and overlays.
 */
module Config {
  import opened Wrappers
  import opened Strings

  /**
   * `wmts_wrapper_conf`. `hasDateRegexp` says whether `date_regexp` holds the compiled
   * date pattern; `time` and `yearDir` are the directive flags (0 or 1 in C).
   */
  datatype WrapperConf = WrapperConf(
    role: Option<string>,
    time: bool,
    hasDateRegexp: bool,
    mimeType: Option<string>,
    timeLookupUri: Option<string>,
    yearDir: bool)

  /** `create_dir_config`: a zero-filled record. */
  const EmptyConf: WrapperConf := WrapperConf(None, false, false, None, None, false)

  /**
   * A configuration as the directives produce it: `WMTSWrapperRole` sets the role and
   * compiles the date pattern in the same step, so one is present exactly when the other is.
   */
  predicate ValidConf(c: WrapperConf) {
    c.role.Some? <==> c.hasDateRegexp
  }

  function Choose<T>(add: Option<T>, base: Option<T>): Option<T> {
    if add.None? then base else add
  }

  /**
   * `merge_dir_conf`: a field the child directory set wins. A flag counts as unset when
   * it is 0, so the merged flag is set when either side set it.
   */
  function MergeDirConf(base: WrapperConf, add: WrapperConf): (c: WrapperConf)
    ensures add.role.Some? ==> c.role == add.role
    ensures add.role.None? ==> c.role == base.role
    ensures add.mimeType.Some? ==> c.mimeType == add.mimeType
    ensures add.mimeType.None? ==> c.mimeType == base.mimeType
    ensures add.timeLookupUri.Some? ==> c.timeLookupUri == add.timeLookupUri
    ensures add.timeLookupUri.None? ==> c.timeLookupUri == base.timeLookupUri
    ensures c.time <==> add.time || base.time
    ensures c.yearDir <==> add.yearDir || base.yearDir
  {
    WrapperConf(
      Choose(add.role, base.role),
      if !add.time then base.time else add.time,
      if !add.hasDateRegexp then base.hasDateRegexp else add.hasDateRegexp,
      Choose(add.mimeType, base.mimeType),
      Choose(add.timeLookupUri, base.timeLookupUri),
      if !add.yearDir then base.yearDir else add.yearDir)
  }

  /** Merging keeps the role and its compiled date pattern together. */
  lemma MergePreservesValid(base: WrapperConf, add: WrapperConf)
    requires ValidConf(base) && ValidConf(add)
    ensures ValidConf(MergeDirConf(base, add))
  {
  }

  /** An empty directory configuration is neutral on either side of a merge. */
  lemma MergeIdentity(c: WrapperConf)
    ensures MergeDirConf(c, EmptyConf) == c
    ensures MergeDirConf(EmptyConf, c) == c
  {
  }

  /** Merging down a chain of nested directories does not depend on how it is grouped. */
  lemma MergeAssociative(a: WrapperConf, b: WrapperConf, c: WrapperConf)
    ensures MergeDirConf(MergeDirConf(a, b), c) == MergeDirConf(a, MergeDirConf(b, c))
  {
  }

  /** A nested directory cannot switch off time handling or year directories it inherits. */
  lemma MergeKeepsFlags(base: WrapperConf, add: WrapperConf)
    ensures base.time ==> MergeDirConf(base, add).time
    ensures base.yearDir ==> MergeDirConf(base, add).yearDir
  {
  }

  // ---- roles ----

  /** `WMTSWrapperRole`, compared with `apr_strnatcasecmp`. */
  datatype Role = Root | Style | Layer | TileMatrixSet | OtherRole

  function RoleOf(role: string): Role {
    if EqIgnoreCase(role, "root") then Root
    else if EqIgnoreCase(role, "style") then Style
    else if EqIgnoreCase(role, "layer") then Layer
    else if EqIgnoreCase(role, "tilematrixset") then TileMatrixSet
    else OtherRole
  }

  // ---- check_valid_extension ----

  const PngMime: string := "image/png"
  const JpegMime: string := "image/jpeg"
  const MapboxMime: string := "application/vnd.mapbox-vector-tile"
  const ProtobufMime: string := "application/x-protobuf;type=mapbox-vector"
  const TiffMime: string := "image/tiff"
  const LercMime: string := "image/lerc"

  /**
   * `check_valid_extension`: whether the extension of a tile request (from its first '.')
   * suits the layer's MIME type. The two vector MIME types accept the same extensions; an
   * unknown or missing MIME type accepts nothing.
   */
  function CheckValidExtension(mime: Option<string>, ext: string): bool {
    if mime.None? then false
    else
      var m := mime.value;
      if EqIgnoreCase(m, PngMime) then EqIgnoreCase(".png", ext)
      else if EqIgnoreCase(m, JpegMime) then EqIgnoreCase(".jpg", ext) || EqIgnoreCase(".jpeg", ext)
      else if EqIgnoreCase(m, MapboxMime) || EqIgnoreCase(m, ProtobufMime) then
        EqIgnoreCase(".pbf", ext) || EqIgnoreCase(".mvt", ext)
      else if EqIgnoreCase(m, TiffMime) then EqIgnoreCase(".tif", ext) || EqIgnoreCase(".tiff", ext)
      else if EqIgnoreCase(m, LercMime) then EqIgnoreCase(".lerc", ext)
      else false
  }

  /** Reference definition: the MIME types and the extensions each one admits. */
  const ExtensionTable: seq<(string, seq<string>)> := [
    (PngMime, [".png"]),
    (JpegMime, [".jpg", ".jpeg"]),
    (MapboxMime, [".pbf", ".mvt"]),
    (ProtobufMime, [".pbf", ".mvt"]),
    (TiffMime, [".tif", ".tiff"]),
    (LercMime, [".lerc"])
  ]

  predicate Admits(mime: string, ext: string) {
    exists i, j :: 0 <= i < |ExtensionTable| && 0 <= j < |ExtensionTable[i].1|
      && EqIgnoreCase(mime, ExtensionTable[i].0) && EqIgnoreCase(ext, ExtensionTable[i].1[j])
  }

  lemma DistinctMimes()
    ensures forall i, j :: 0 <= i < j < |ExtensionTable| ==>
      !EqIgnoreCase(ExtensionTable[i].0, ExtensionTable[j].0) || (i == 2 && j == 3)
  {
    assert Lower(PngMime)[6] == 'p' && Lower(JpegMime)[6] == 'j' && Lower(TiffMime)[6] == 't'
      && Lower(LercMime)[6] == 'l';
    assert |Lower(PngMime)| == 9 && |Lower(MapboxMime)| == 34 && |Lower(ProtobufMime)| == 41;
  }

  /** `check_valid_extension` accepts exactly the table's pairs, for a MIME type that is set. */
  lemma CheckValidExtensionTable(mime: string, ext: string)
    ensures CheckValidExtension(Some(mime), ext) <==> Admits(mime, ext)
  {
    if CheckValidExtension(Some(mime), ext) {
      CheckedAdmitted(mime, ext);
    }
    if Admits(mime, ext) {
      var i, j :| 0 <= i < |ExtensionTable| && 0 <= j < |ExtensionTable[i].1|
        && EqIgnoreCase(mime, ExtensionTable[i].0) && EqIgnoreCase(ext, ExtensionTable[i].1[j]);
      AdmittedChecked(mime, ext, i, j);
    }
  }

  lemma CheckedAdmitted(mime: string, ext: string)
    requires CheckValidExtension(Some(mime), ext)
    ensures Admits(mime, ext)
  {
    if EqIgnoreCase(mime, PngMime) {
      assert ExtensionTable[0].1[0] == ".png";
    } else if EqIgnoreCase(mime, JpegMime) {
      assert ExtensionTable[1].1[0] == ".jpg" && ExtensionTable[1].1[1] == ".jpeg";
    } else if EqIgnoreCase(mime, MapboxMime) {
      assert ExtensionTable[2].1[0] == ".pbf" && ExtensionTable[2].1[1] == ".mvt";
    } else if EqIgnoreCase(mime, ProtobufMime) {
      assert ExtensionTable[3].1[0] == ".pbf" && ExtensionTable[3].1[1] == ".mvt";
    } else if EqIgnoreCase(mime, TiffMime) {
      assert ExtensionTable[4].1[0] == ".tif" && ExtensionTable[4].1[1] == ".tiff";
    } else {
      assert ExtensionTable[5].1[0] == ".lerc";
    }
  }

  /** A MIME type equal to `a` up to case is not `b` when `a` is not. */
  lemma Unlike(mime: string, a: string, b: string)
    requires EqIgnoreCase(mime, a) && !EqIgnoreCase(a, b)
    ensures !EqIgnoreCase(mime, b)
  {
    if EqIgnoreCase(mime, b) {
      EqIgnoreCaseTrans(a, mime, b);
    }
  }

  lemma AdmittedChecked(mime: string, ext: string, i: int, j: int)
    requires 0 <= i < |ExtensionTable| && 0 <= j < |ExtensionTable[i].1|
    requires EqIgnoreCase(mime, ExtensionTable[i].0) && EqIgnoreCase(ext, ExtensionTable[i].1[j])
    ensures CheckValidExtension(Some(mime), ext)
  {
    DistinctMimes();
    var m := ExtensionTable[i].0;
    assert ExtensionTable[0].0 == PngMime && ExtensionTable[1].0 == JpegMime;
    assert ExtensionTable[2].0 == MapboxMime && ExtensionTable[3].0 == ProtobufMime;
    assert ExtensionTable[4].0 == TiffMime && ExtensionTable[5].0 == LercMime;
    if i >= 1 { Unlike(mime, m, PngMime); }
    if i >= 2 { Unlike(mime, m, JpegMime); }
    if i >= 4 {
      Unlike(mime, m, MapboxMime);
      Unlike(mime, m, ProtobufMime);
    }
    if i >= 5 { Unlike(mime, m, TiffMime); }
  }

  /** A layer without a MIME type, or with one outside the table, accepts no extension. */
  lemma UnknownMimeRejects(mime: Option<string>, ext: string)
    requires mime.None? || forall i :: 0 <= i < |ExtensionTable| ==> !EqIgnoreCase(mime.value, ExtensionTable[i].0)
    ensures !CheckValidExtension(mime, ext)
  {
    if mime.Some? {
      assert ExtensionTable[0].0 == PngMime && ExtensionTable[1].0 == JpegMime;
      assert ExtensionTable[2].0 == MapboxMime && ExtensionTable[3].0 == ProtobufMime;
      assert ExtensionTable[4].0 == TiffMime && ExtensionTable[5].0 == LercMime;
    }
  }

  // ---- the date pattern compiled by WMTSWrapperRole ----

  predicate DigitsAt(s: string, i: nat, n: nat) {
    i + n <= |s| && forall k :: i <= k < i + n ==> IsDigit(s[k])
  }

  /** YYYY-MM-DD, as digits and dashes only. */
  predicate IsDate(s: string) {
    |s| == 10 && DigitsAt(s, 0, 4) && s[4] == '-' && DigitsAt(s, 5, 2) && s[7] == '-'
    && DigitsAt(s, 8, 2)
  }

  /** YYYY-MM-DDThh:mm:ssZ. */
  predicate IsDateTime(s: string) {
    |s| == 20 && IsDate(s[..10]) && s[10] == 'T' && DigitsAt(s, 11, 2) && s[13] == ':'
    && DigitsAt(s, 14, 2) && s[16] == ':' && DigitsAt(s, 17, 2) && s[19] == 'Z'
  }

  predicate DateShape(s: string) {
    IsDate(s) || IsDateTime(s)
  }

  /**
   * `ap_regexec` with `^\d{4}-\d{2}-\d{2}$|^\d{4}-\d{2}-\d{2}T\d{2}:\d{2}:\d{2}Z$`: the
   * whole string has one of the two shapes; PCRE's `$` also matches before a final newline.
   */
  predicate MatchesDatePattern(s: string) {
    DateShape(s) || (|s| > 0 && s[|s| - 1] == '\n' && DateShape(s[..|s| - 1]))
  }

  /** A date value is accepted when it has a date shape or reads "default". */
  predicate TimeAccepted(v: string) {
    MatchesDatePattern(v) || EqIgnoreCase(v, "default")
  }

  /** Reference definition of a shape: '#' stands for a decimal digit, anything else for itself. */
  predicate FitsTemplate(s: string, template: string) {
    |s| == |template|
    && forall i :: 0 <= i < |s| ==> if template[i] == '#' then IsDigit(s[i]) else s[i] == template[i]
  }

  const DateTemplate: string := "####-##-##"
  const DateTimeTemplate: string := "####-##-##T##:##:##Z"

  lemma DateShapeTemplates(s: string)
    ensures DateShape(s) <==> FitsTemplate(s, DateTemplate) || FitsTemplate(s, DateTimeTemplate)
  {
    if |s| == 20 {
      assert forall k :: 0 <= k < 10 ==> s[..10][k] == s[k];
    }
  }

  /** The check is on the shape only: a month 13 and a day 40 pass. */
  lemma DateCheckIsShapeOnly()
    ensures MatchesDatePattern("2020-13-40")
    ensures MatchesDatePattern("2020-01-01T25:61:61Z")
    ensures !MatchesDatePattern("default")
  {
    assert IsDate("2020-13-40");
    assert IsDate("2020-01-01T25:61:61Z"[..10]);
  }

  // ---- the tile back-end (mod_reproject or mod_mrf) ----

  /** One level of the tile grid: its width and height in tiles. */
  datatype Dim = Dim(width: int, height: int)

  /** `n_levels` and the per-level `rsets` array. */
  datatype Grid = Grid(nLevels: int, rsets: seq<Dim>)

  /**
   * The back-end configured for the directory. Its `n_levels` is the grid's; it is 0
   * (no bounds checks) when there is none.
   */
  datatype Backend =
    | Reproject(grid: Grid, source: Option<string>)
    | Mrf(grid: Grid, skipLevels: int, datafname: Option<string>, redirect: Option<string>, idxfname: string)
    | NoBackend

  function NLevels(b: Backend): int {
    if b.NoBackend? then 0 else b.grid.nLevels
  }
}
