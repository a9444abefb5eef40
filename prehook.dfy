/**
 * `pre_hook`: in a STYLE directory of a time-enabled layer it moves the date out of the
 * REST path into `r->notes` and redirects; in a TILEMATRIXSET directory it checks the
 * requested tile against the layer's MIME type and the back-end's tile grid, and for a
 * time-enabled layer overlays a back-end configuration whose file names carry the date.
 */
module PreHook {
  import opened Wrappers
  import opened Strings
  import opened Paths
  import opened Tables
  import opened Errors
  import opened Config
  import opened Requests

  /**
   * What the date service's sub-request gives back: its status (0 is APR_SUCCESS) and the
   * "date" and "filename" members of the JSON reply (empty when the reply lacks them).
   */
  datatype DateReply = DateReply(status: int, date: string, filename: string)

  /** A NULL string as `apr_psprintf`'s `%s` prints it. */
  function OrNull(v: Option<string>): string {
    match v case Some(s) => s case None => "(null)"
  }

  /** `%s?layer=%s&datetime=%s` of the time lookup URI, the layer and the date. */
  function LookupUri(lookupBase: Option<string>, layer: string, datetime: Option<string>): string {
    OrNull(lookupBase) + "?layer=" + layer + "&datetime=" + OrNull(datetime)
  }

  // ---- the STYLE pass ----

  /**
   * The STYLE pass of a time-enabled layer. A request that already went through it (the
   * filename note is set, or the previous attempt noted a date) got stuck here because its
   * TILEMATRIXSET is unknown. Otherwise the token five from the end is the date: it is
   * noted, checked, and removed from the path the request is redirected to.
   */
  function StyleStep(uri: string, prev: Option<Attempt>, notes: Table, hasDateRegexp: bool): Step {
    if Get(notes, FilenameNote).Some? || (prev.Some? && Get(prev.value.notes, DateNote).Some?) then
      Step(Report([InvalidTileMatrixSet]), notes)
    else
      var tokens := Segments(uri, '/');
      var k := |tokens| - 5;
      if k < 0 || !hasDateRegexp then Step(Fault, notes)
      else
        var notes' := Set(notes, DateNote, Some(tokens[k]));
        if !TimeAccepted(tokens[k]) then Step(Report([InvalidTime]), notes')
        else
          var out := Join(Without(tokens, k), '/');
          if |out| >= MaxStringLen then Step(Fault, notes') else Step(Redirect(out, false), notes')
  }

  // ---- the TILEMATRIXSET pass: checking the tile ----

  function NotInteger(name: string): WmtsError {
    MakeError(400, "InvalidParameterValue", name, name + " is not a valid integer")
  }

  function OutOfRange(name: string, maximum: int): WmtsError {
    MakeError(400, "TileOutOfRange", name, name + " is out of range, maximum value is " + IntToString(maximum))
  }

  /** The extension is the last token from its first '.'; it must suit the layer's MIME type, if one is set. */
  function FormatCheck(col: string, mime: Option<string>): seq<WmtsError> {
    var ext := SplitAtChar(col, '.').1;
    if ext != [] && mime.Some? && !CheckValidExtension(mime, ext) then [InvalidFormat] else []
  }

  /** `isdigit(*dim)`: the token must start with a digit. */
  function IntegerCheck(token: string, name: string): seq<WmtsError> {
    if token != [] && IsDigit(token[0]) then [] else [NotInteger(name)]
  }

  /** `int tile = apr_atoi64(dim)`. */
  function TileValue(token: string): int {
    ToInt32(StrToI64(token))
  }

  /** The path ends in `.../TILEMATRIX/TILEROW/TILECOL`. */
  function ColOf(tokens: seq<string>): int
    requires |tokens| >= 3
  {
    TileValue(tokens[|tokens| - 1])
  }

  function RowOf(tokens: seq<string>): int
    requires |tokens| >= 3
  {
    TileValue(tokens[|tokens| - 2])
  }

  function LevelOf(tokens: seq<string>): int
    requires |tokens| >= 3
  {
    TileValue(tokens[|tokens| - 3])
  }

  /** The level check, as intended: the levels of an `n`-level grid are 0 to n - 1. */
  predicate LevelOutOfRange(l: int, n: int) {
    l >= n || l < 0
  }

  /** The level check as the source writes it, `tile_l > n_levels || tile_l < 0`. */
  predicate LevelOutOfRangeAsWritten(l: int, n: int) {
    l > n || l < 0
  }

  /**
   * The width and height of level `l` read from `rsets` (mod_mrf's index is shifted by its
   * skipped levels). `None` when the back-end has no `rsets` or the index is outside it.
   */
  function LevelDims(b: Backend, l: int): Option<Dim> {
    if b.NoBackend? then None
    else
      var index := if b.Mrf? then l + b.skipLevels else l;
      if 0 <= index < |b.grid.rsets| then Some(b.grid.rsets[index]) else None
  }

  /** Only one of the column and row checks can fail: the row is checked only when the column passed. */
  function DimsCheck(dims: Option<Dim>, x: int, y: int): seq<WmtsError> {
    match dims
    case None => []
    case Some(d) =>
      if x >= d.width || x < 0 then [OutOfRange("TILECOL", d.width - 1)]
      else if y >= d.height || y < 0 then [OutOfRange("TILEROW", d.height - 1)]
      else []
  }

  /** The errors about the last three tokens themselves, before the grid is consulted. */
  function TokenErrors(tokens: seq<string>, mime: Option<string>): seq<WmtsError>
    requires |tokens| >= 3
  {
    var col, row, level := tokens[|tokens| - 1], tokens[|tokens| - 2], tokens[|tokens| - 3];
    FormatCheck(col, mime) + IntegerCheck(col, "TILECOL") + IntegerCheck(row, "TILEROW")
    + IntegerCheck(level, "TILEMATRIX")
  }

  /**
   * The checks against the tile grid, made only when the back-end has levels. A level
   * outside the grid is reported and its sizes are not read.
   */
  function BoundsErrors(b: Backend, x: int, y: int, l: int): seq<WmtsError> {
    var n := NLevels(b);
    if n == 0 then []
    else if LevelOutOfRange(l, n) then [OutOfRange("TILEMATRIX", n - 1)]
    else DimsCheck(LevelDims(b, l), x, y)
  }

  /** The grid admits level `l` but `rsets` has no size for it: the read is undefined. */
  predicate GridFault(b: Backend, l: int) {
    NLevels(b) != 0 && !LevelOutOfRange(l, NLevels(b)) && LevelDims(b, l).None?
  }

  /**
   * Every error the TILEMATRIXSET pass records, in order, for a tile whose sizes can be
   * read (`!GridFault`).
   */
  function CoordErrors(tokens: seq<string>, mime: Option<string>, b: Backend): seq<WmtsError>
    requires |tokens| >= 3
  {
    TokenErrors(tokens, mime) + BoundsErrors(b, ColOf(tokens), RowOf(tokens), LevelOf(tokens))
  }

  /** The grid checks as the source writes them: `>` for the level, and the sizes read whatever the level. */
  function BoundsErrorsAsWritten(b: Backend, x: int, y: int, l: int): seq<WmtsError> {
    var n := NLevels(b);
    if n == 0 then [] else LevelCheckAsWritten(l, n) + DimsCheck(LevelDims(b, l), x, y)
  }

  function LevelCheckAsWritten(l: int, n: int): seq<WmtsError> {
    if LevelOutOfRangeAsWritten(l, n) then [OutOfRange("TILEMATRIX", n - 1)] else []
  }

  predicate GridFaultAsWritten(b: Backend, l: int) {
    NLevels(b) != 0 && LevelDims(b, l).None?
  }

  /** Every error the TILEMATRIXSET pass records, in order, as the source writes the checks. */
  function CoordErrorsAsWritten(tokens: seq<string>, mime: Option<string>, b: Backend): seq<WmtsError>
    requires |tokens| >= 3
  {
    TokenErrors(tokens, mime) + BoundsErrorsAsWritten(b, ColOf(tokens), RowOf(tokens), LevelOf(tokens))
  }

  /**
   * The checks as written are undefined when a size is read outside `rsets` (or from no
   * `rsets` at all), or when a sixth error is written into the five slots of `wmts_errors`.
   */
  predicate TileFault(tokens: seq<string>, mime: Option<string>, b: Backend)
    requires |tokens| >= 3
  {
    GridFaultAsWritten(b, LevelOf(tokens)) || |CoordErrorsAsWritten(tokens, mime, b)| > Capacity
  }

  /** A back-end whose `rsets` has a size for every level its `n_levels` admits. */
  predicate GridCovers(b: Backend) {
    match b
    case NoBackend => true
    case Reproject(g, _) => |g.rsets| >= g.nLevels
    case Mrf(g, skip, _, _, _) => skip >= 0 && |g.rsets| >= g.nLevels + skip
  }

  // ---- properties of the tile checks ----

  /** With the level checked against `n_levels - 1`, a consistent grid never reads outside `rsets`. */
  lemma LevelInGrid(b: Backend, l: int)
    requires GridCovers(b)
    ensures !GridFault(b, l)
  {
  }

  /**
   * As written, a one-level grid admits level 1 (`1 > 1` is false) and its size is read from
   * past the end of `rsets`, although the grid is consistent.
   */
  lemma LevelPastGridAsWritten()
    ensures var b := Reproject(Grid(1, [Dim(1, 1)]), None);
      GridCovers(b) && !LevelOutOfRangeAsWritten(1, NLevels(b)) && GridFaultAsWritten(b, 1)
      && LevelOutOfRange(1, NLevels(b)) && !GridFault(b, 1)
  {
  }

  /** The corrected checks record at most five errors: one for FORMAT, three integers, one for the grid. */
  lemma CoordErrorsFit(tokens: seq<string>, mime: Option<string>, b: Backend)
    requires |tokens| >= 3
    ensures |CoordErrors(tokens, mime, b)| <= Capacity
  {
    var be := BoundsErrors(b, ColOf(tokens), RowOf(tokens), LevelOf(tokens));
    BoundsErrorsAtMostOne(b, ColOf(tokens), RowOf(tokens), LevelOf(tokens));
    TokenErrorsAtMostFour(tokens, mime);
    assert |CoordErrors(tokens, mime, b)| == |TokenErrors(tokens, mime)| + |be|;
  }

  /** The corrected grid checks record at most one error. */
  lemma BoundsErrorsAtMostOne(b: Backend, x: int, y: int, l: int)
    ensures |BoundsErrors(b, x, y, l)| <= 1
  {
  }

  /** One FORMAT error and one per tile token: at most four. */
  lemma TokenErrorsAtMostFour(tokens: seq<string>, mime: Option<string>)
    requires |tokens| >= 3
    ensures |TokenErrors(tokens, mime)| <= 4
  {
    var n := |tokens|;
    assert |TokenErrors(tokens, mime)| == |FormatCheck(tokens[n - 1], mime)| + |IntegerCheck(tokens[n - 1], "TILECOL")|
      + |IntegerCheck(tokens[n - 2], "TILEROW")| + |IntegerCheck(tokens[n - 3], "TILEMATRIX")|;
  }

  /**
   * As written, a request can record six errors, one more than `wmts_errors` holds: a bad
   * FORMAT, three non-integers, and a negative level and column on a mod_mrf grid whose
   * skipped levels make the size of level -1 readable.
   */
  lemma CoordErrorsOverflowAsWritten()
    ensures var tokens, b := ["-1", "-1", "-1.jpg"], Mrf(Grid(1, [Dim(1, 1), Dim(1, 1)]), 1, None, None, "");
      GridCovers(b) && !GridFaultAsWritten(b, LevelOf(tokens))
      && |CoordErrorsAsWritten(tokens, Some(PngMime), b)| == Capacity + 1
  {
    var tokens := ["-1", "-1", "-1.jpg"];
    MinusOne();
    assert LevelOf(tokens) == -1 && ColOf(tokens) == -1;
    PngRejectsJpg();
    assert |TokenErrors(tokens, Some(PngMime))| == 4;
  }

  /** The six errors of that request make the pass undefined. */
  lemma OverflowIsFault(datetime: Option<string>, cfg: WrapperConf, lookup: string -> DateReply)
    requires cfg.mimeType == Some(PngMime)
    ensures TileResult(["-1", "-1", "-1.jpg"], datetime, cfg, Mrf(Grid(1, [Dim(1, 1), Dim(1, 1)]), 1, None, None, ""), lookup)
      == Fault
  {
    CoordErrorsOverflowAsWritten();
  }

  lemma MinusOne()
    ensures TileValue("-1") == -1 && TileValue("-1.jpg") == -1
  {
    assert IntToString(-1) == "-1";
    IntToStringRoundTrip(-1);
    assert "-1.jpg"[0] == '-' && "-1.jpg"[1..] == "1" + ".jpg";
    DigitPrefixOfRun("1", ".jpg");
    assert SkipSpace("-1.jpg") == "-1.jpg";
  }

  lemma PngRejectsJpg()
    ensures FormatCheck("-1.jpg", Some(PngMime)) == [InvalidFormat]
  {
    SplitAtCharUnique("-1", ".jpg", '.');
    assert !EqIgnoreCase(".png", ".jpg") by { assert Lower(".png")[1] != Lower(".jpg")[1]; }
  }

  /** Only a column inside the level lets the row be checked. */
  lemma RowCheckedAfterColumn(d: Dim, x: int, y: int)
    ensures DimsCheck(Some(d), x, y) == [] <==> 0 <= x < d.width && 0 <= y < d.height
    ensures DimsCheck(Some(d), x, y) == [OutOfRange("TILEROW", d.height - 1)]
      <==> 0 <= x < d.width && !(0 <= y < d.height)
  {
  }

  /** `%d` of a tile index, followed by an extension or nothing, gives back the index. */
  lemma TileValueOfNumeral(i: int, ext: string, name: string)
    requires 0 <= i < 0x8000_0000
    requires ext == [] || ext[0] == '.'
    ensures var token := IntToString(i) + ext;
      IntegerCheck(token, name) == [] && TileValue(token) == i && SplitAtChar(token, '.').1 == ext
  {
    var s := IntToString(i);
    assert s == NatToString(i);
    assert '.' !in s by {
      forall k | 0 <= k < |s| ensures s[k] != '.' {
        assert IsDigit(s[k]);
      }
    }
    SplitAtCharUnique(s, ext, '.');
    DigitPrefixOfRun(s, ext);
    NatValueOfNatToString(i);
    var t := s + ext;
    assert t[0] == s[0] && IsDigit(t[0]);
    assert SkipSpace(t) == t;
  }

  /**
   * A request for a tile inside the grid, written as `%d` writes its indices, with no
   * extension or one the layer accepts, records no error.
   */
  lemma AcceptedTile(prefix: seq<string>, l: int, y: int, x: int, ext: string, mime: Option<string>, b: Backend)
    requires 0 <= l < 0x8000_0000 && 0 <= y < 0x8000_0000 && 0 <= x < 0x8000_0000
    requires ext == [] || (ext[0] == '.' && (mime.None? || CheckValidExtension(mime, ext)))
    requires NLevels(b) != 0 ==>
      l < NLevels(b) && LevelDims(b, l).Some? && x < LevelDims(b, l).value.width && y < LevelDims(b, l).value.height
    ensures var tokens := prefix + [IntToString(l), IntToString(y), IntToString(x) + ext];
      !TileFault(tokens, mime, b) && CoordErrorsAsWritten(tokens, mime, b) == []
  {
    var tokens := prefix + [IntToString(l), IntToString(y), IntToString(x) + ext];
    TileValueOfNumeral(l, [], "TILEMATRIX");
    TileValueOfNumeral(y, [], "TILEROW");
    TileValueOfNumeral(x, ext, "TILECOL");
    assert IntToString(l) + [] == IntToString(l) && IntToString(y) + [] == IntToString(y);
    assert LevelOf(tokens) == l && RowOf(tokens) == y && ColOf(tokens) == x;
    assert !GridFault(b, l) && CoordErrors(tokens, mime, b) == [];
    InGridLevelsAgree(tokens, mime, b);
  }

  /**
   * For a level inside the grid (or a back-end without levels) the checks as written and
   * the corrected ones agree: the same errors, never more than fit, and the same fault.
   */
  lemma InGridLevelsAgree(tokens: seq<string>, mime: Option<string>, b: Backend)
    requires |tokens| >= 3 && (NLevels(b) == 0 || 0 <= LevelOf(tokens) < NLevels(b))
    ensures CoordErrorsAsWritten(tokens, mime, b) == CoordErrors(tokens, mime, b)
    ensures TileFault(tokens, mime, b) == GridFault(b, LevelOf(tokens))
  {
    BoundsAgree(b, ColOf(tokens), RowOf(tokens), LevelOf(tokens));
    CoordErrorsFit(tokens, mime, b);
  }

  lemma BoundsAgree(b: Backend, x: int, y: int, l: int)
    requires NLevels(b) == 0 || 0 <= l < NLevels(b)
    ensures BoundsErrorsAsWritten(b, x, y, l) == BoundsErrors(b, x, y, l)
    ensures GridFaultAsWritten(b, l) == GridFault(b, l)
  {
  }

  /**
   * A tile that the checks as written let through on a back-end with levels has a readable
   * size and lies inside it, but its level may be `n_levels` itself, one past the grid.
   */
  lemma CheckedTileAsWritten(tokens: seq<string>, mime: Option<string>, b: Backend)
    requires |tokens| >= 3 && NLevels(b) != 0
    requires !TileFault(tokens, mime, b) && CoordErrorsAsWritten(tokens, mime, b) == []
    ensures 0 <= LevelOf(tokens) <= NLevels(b) && LevelDims(b, LevelOf(tokens)).Some?
    ensures 0 <= ColOf(tokens) < LevelDims(b, LevelOf(tokens)).value.width
    ensures 0 <= RowOf(tokens) < LevelDims(b, LevelOf(tokens)).value.height
    ensures forall k :: |tokens| - 3 <= k < |tokens| ==> tokens[k] != [] && IsDigit(tokens[k][0])
  {
    var te, be := TokenErrors(tokens, mime), BoundsErrorsAsWritten(b, ColOf(tokens), RowOf(tokens), LevelOf(tokens));
    assert |te| + |be| == |CoordErrorsAsWritten(tokens, mime, b)|;
    TokenDigits(tokens, mime);
    BoundsPassedAsWritten(b, ColOf(tokens), RowOf(tokens), LevelOf(tokens));
  }

  /** No grid error as written, and a readable size, means the tile lies inside level `l` of at most `n_levels`. */
  lemma BoundsPassedAsWritten(b: Backend, x: int, y: int, l: int)
    requires NLevels(b) != 0 && !GridFaultAsWritten(b, l) && BoundsErrorsAsWritten(b, x, y, l) == []
    ensures 0 <= l <= NLevels(b) && LevelDims(b, l).Some?
    ensures 0 <= x < LevelDims(b, l).value.width && 0 <= y < LevelDims(b, l).value.height
  {
    RowCheckedAfterColumn(LevelDims(b, l).value, x, y);
  }

  /** As written, a grid with a size for level `n_levels` lets that level through without an error. */
  lemma LevelAtCountAsWritten(b: Backend, x: int, y: int)
    requires NLevels(b) > 0 && LevelDims(b, NLevels(b)).Some?
    requires 0 <= x < LevelDims(b, NLevels(b)).value.width && 0 <= y < LevelDims(b, NLevels(b)).value.height
    ensures !GridFaultAsWritten(b, NLevels(b)) && BoundsErrorsAsWritten(b, x, y, NLevels(b)) == []
    ensures BoundsErrors(b, x, y, NLevels(b)) == [OutOfRange("TILEMATRIX", NLevels(b) - 1)]
  {
    RowCheckedAfterColumn(LevelDims(b, NLevels(b)).value, x, y);
  }

  /** A tile that passes the checks of a back-end with levels lies inside its grid. */
  lemma CheckedTileInGrid(tokens: seq<string>, mime: Option<string>, b: Backend)
    requires |tokens| >= 3 && NLevels(b) != 0
    requires !GridFault(b, LevelOf(tokens)) && CoordErrors(tokens, mime, b) == []
    ensures 0 <= LevelOf(tokens) < NLevels(b) && LevelDims(b, LevelOf(tokens)).Some?
    ensures 0 <= ColOf(tokens) < LevelDims(b, LevelOf(tokens)).value.width
    ensures 0 <= RowOf(tokens) < LevelDims(b, LevelOf(tokens)).value.height
    ensures forall k :: |tokens| - 3 <= k < |tokens| ==> tokens[k] != [] && IsDigit(tokens[k][0])
  {
    var te, be := TokenErrors(tokens, mime), BoundsErrors(b, ColOf(tokens), RowOf(tokens), LevelOf(tokens));
    assert |te| + |be| == |CoordErrors(tokens, mime, b)|;
    TokenDigits(tokens, mime);
    BoundsPassed(b, ColOf(tokens), RowOf(tokens), LevelOf(tokens));
  }

  /** No token error means the three tile tokens start with digits. */
  lemma TokenDigits(tokens: seq<string>, mime: Option<string>)
    requires |tokens| >= 3 && TokenErrors(tokens, mime) == []
    ensures forall k :: |tokens| - 3 <= k < |tokens| ==> tokens[k] != [] && IsDigit(tokens[k][0])
  {
    var n := |tokens|;
    var ic := IntegerCheck(tokens[n - 1], "TILECOL");
    var ir := IntegerCheck(tokens[n - 2], "TILEROW");
    var il := IntegerCheck(tokens[n - 3], "TILEMATRIX");
    assert |FormatCheck(tokens[n - 1], mime)| + |ic| + |ir| + |il| == 0;
  }

  /** No grid error, and a readable size, means the tile lies inside its level. */
  lemma BoundsPassed(b: Backend, x: int, y: int, l: int)
    requires NLevels(b) != 0 && !GridFault(b, l) && BoundsErrors(b, x, y, l) == []
    ensures 0 <= l < NLevels(b) && LevelDims(b, l).Some?
    ensures 0 <= x < LevelDims(b, l).value.width && 0 <= y < LevelDims(b, l).value.height
  {
    RowCheckedAfterColumn(LevelDims(b, l).value, x, y);
  }

  // ---- the TILEMATRIXSET pass: the configuration overlay ----

  /** `apr_pstrndup(date, 4)`: at most the first four characters. */
  function Year(date: string): string {
    if |date| <= 4 then date else date[..4]
  }

  function ReplaceFilename(template: Option<string>, filename: string): Option<string> {
    match template
    case None => None
    case Some(s) => Some(FindAndReplace("${filename}", s, Some(filename)))
  }

  /**
   * The mod_mrf configuration after a lookup: "${filename}" in the data file, redirect and
   * index names replaced by the file the date service named, and "${YYYY}" in the index name
   * by the year of its date when the layer keeps a year directory.
   */
  function MrfOverlay(b: Backend, reply: DateReply, yearDir: bool): Backend
    requires b.Mrf?
  {
    var idx := FindAndReplace("${filename}", b.idxfname, Some(reply.filename));
    Mrf(b.grid, b.skipLevels, ReplaceFilename(b.datafname, reply.filename), ReplaceFilename(b.redirect, reply.filename),
      if yearDir then FindAndReplace("${YYYY}", idx, Some(Year(reply.date))) else idx)
  }

  /**
   * For a time-enabled layer with a checked tile: mod_reproject gets "${date}" in its
   * source replaced by the noted date; mod_mrf gets the names the date service returns for
   * the layer (the token six from the end) and the date. A back-end without levels, or a
   * layer without time, is left alone.
   */
  function OverlayOutcome(cfg: WrapperConf, b: Backend, tokens: seq<string>, datetime: Option<string>,
                          lookup: string -> DateReply): Outcome {
    if NLevels(b) == 0 || !cfg.time then Declined
    else if b.Reproject? && b.source.Some? then
      Overlay(Reproject(b.grid, Some(FindAndReplace("${date}", b.source.value, datetime))))
    else if b.Mrf? && (b.datafname.Some? || b.redirect.Some?) then
      if |tokens| < 6 then Fault
      else
        var reply := lookup(LookupUri(cfg.timeLookupUri, tokens[|tokens| - 6], datetime));
        if reply.status != 0 then Fail(reply.status) else Overlay(MrfOverlay(b, reply, cfg.yearDir))
    else Declined
  }

  // ---- properties of the overlay ----

  /**
   * mod_reproject's first "${date}" becomes the noted date; with no date noted, `apr_pstrcat`
   * stops at the NULL and the source is cut short before the placeholder.
   */
  lemma ReprojectDate(cfg: WrapperConf, g: Grid, a: string, c: string, tokens: seq<string>, datetime: Option<string>,
                      lookup: string -> DateReply)
    requires cfg.time && g.nLevels != 0
    requires forall j :: 0 <= j < |a| ==> !OccursAt(a + "${date}" + c, "${date}", j)
    ensures OverlayOutcome(cfg, Reproject(g, Some(a + "${date}" + c)), tokens, datetime, lookup)
         == Overlay(Reproject(g, Some(a + (match datetime case None => [] case Some(d) => d + c))))
  {
    FindAndReplaceFirst("${date}", a, c, datetime);
  }

  /**
   * The mod_mrf overlay keeps the grid, the skipped levels and which names are set; a data
   * file name with a "${filename}" gets the date service's file there.
   */
  lemma MrfOverlayNames(b: Backend, reply: DateReply, yearDir: bool, a: string, c: string)
    requires b.Mrf? && b.datafname == Some(a + "${filename}" + c)
    requires forall j :: 0 <= j < |a| ==> !OccursAt(a + "${filename}" + c, "${filename}", j)
    ensures var o := MrfOverlay(b, reply, yearDir);
      o.Mrf? && o.grid == b.grid && o.skipLevels == b.skipLevels && o.redirect.Some? == b.redirect.Some?
      && o.datafname == Some(a + reply.filename + c)
  {
    FindAndReplaceFirst("${filename}", a, c, Some(reply.filename));
    assert a + (reply.filename + c) == a + reply.filename + c;
  }

  /**
   * With a year directory, the first "${YYYY}" of an index name that names no file
   * placeholder becomes the first four characters of the date the service returned.
   */
  lemma MrfOverlayYear(b: Backend, reply: DateReply, p: string, q: string)
    requires b.Mrf? && b.idxfname == p + "${YYYY}" + q
    requires forall j: nat :: !OccursAt(b.idxfname, "${filename}", j)
    requires forall j :: 0 <= j < |p| ==> !OccursAt(p + "${YYYY}" + q, "${YYYY}", j)
    ensures MrfOverlay(b, reply, true).idxfname == p + Year(reply.date) + q
    ensures MrfOverlay(b, reply, false).idxfname == b.idxfname
  {
    FindAndReplaceFirst("${YYYY}", p, q, Some(Year(reply.date)));
    assert p + (Year(reply.date) + q) == p + Year(reply.date) + q;
  }

  /**
   * The date service is consulted only for mod_mrf: for any other back-end, or a layer
   * without time, the outcome does not depend on it and is never a failed lookup.
   */
  lemma LookupOnlyForMrf(cfg: WrapperConf, b: Backend, tokens: seq<string>, datetime: Option<string>,
                         lookup: string -> DateReply, lookup': string -> DateReply)
    requires !cfg.time || !b.Mrf?
    ensures OverlayOutcome(cfg, b, tokens, datetime, lookup) == OverlayOutcome(cfg, b, tokens, datetime, lookup')
    ensures !OverlayOutcome(cfg, b, tokens, datetime, lookup).Fail?
  {
  }

  /**
   * For mod_mrf the service is asked about the layer six tokens from the end and the noted
   * date; a failing status ends the hook with that status, a good one overlays the names.
   */
  lemma MrfLookup(cfg: WrapperConf, b: Backend, tokens: seq<string>, datetime: Option<string>,
                  lookup: string -> DateReply)
    requires cfg.time && b.Mrf? && b.grid.nLevels != 0 && (b.datafname.Some? || b.redirect.Some?) && |tokens| >= 6
    ensures var reply := lookup(LookupUri(cfg.timeLookupUri, tokens[|tokens| - 6], datetime));
      var o := OverlayOutcome(cfg, b, tokens, datetime, lookup);
      (o.Fail? <==> reply.status != 0) && (o.Fail? ==> o.status == reply.status)
      && (!o.Fail? ==> o.Overlay? && o.config == MrfOverlay(b, reply, cfg.yearDir))
  {
  }

  // ---- the passes ----

  /** The recorded `errors` are reported; without any, the configuration is overlaid. */
  function TileOutcome(tokens: seq<string>, errors: seq<WmtsError>, datetime: Option<string>, cfg: WrapperConf,
                       b: Backend, lookup: string -> DateReply): Outcome {
    if |errors| > 0 then Report(errors) else OverlayOutcome(cfg, b, tokens, datetime, lookup)
  }

  /** The TILEMATRIXSET outcome of a path with the three tile tokens, with the checks as the source writes them. */
  function TileResult(tokens: seq<string>, datetime: Option<string>, cfg: WrapperConf, b: Backend,
                      lookup: string -> DateReply): Outcome
    requires |tokens| >= 3
  {
    if TileFault(tokens, cfg.mimeType, b) then Fault
    else TileOutcome(tokens, CoordErrorsAsWritten(tokens, cfg.mimeType, b), datetime, cfg, b, lookup)
  }

  /**
   * A tile the TILEMATRIXSET pass neither reports nor faults on, for a back-end with
   * levels, has a readable size and lies inside it; its level is at most `n_levels`.
   */
  lemma TileResultPassed(tokens: seq<string>, datetime: Option<string>, cfg: WrapperConf, b: Backend,
                         lookup: string -> DateReply)
    requires |tokens| >= 3 && NLevels(b) != 0
    requires var o := TileResult(tokens, datetime, cfg, b, lookup); !o.Report? && !o.Fault?
    ensures 0 <= LevelOf(tokens) <= NLevels(b) && LevelDims(b, LevelOf(tokens)).Some?
    ensures 0 <= ColOf(tokens) < LevelDims(b, LevelOf(tokens)).value.width
    ensures 0 <= RowOf(tokens) < LevelDims(b, LevelOf(tokens)).value.height
  {
    CheckedTileAsWritten(tokens, cfg.mimeType, b);
  }

  /** The TILEMATRIXSET pass: the date comes from the attempt that was redirected here. */
  function TileStep(uri: string, prev: Option<Attempt>, notes: Table, cfg: WrapperConf, b: Backend,
                    lookup: string -> DateReply): Step {
    var tokens := Segments(uri, '/');
    if |tokens| < 3 then Step(Fault, notes)
    else
      var datetime := if prev.Some? then Get(prev.value.notes, DateNote) else None;
      Step(TileResult(tokens, datetime, cfg, b, lookup), notes)
  }

  /** What `pre_hook` does, by the role of the directory. */
  function PreHookStep(uri: string, prev: Option<Attempt>, notes: Table, cfg: WrapperConf, b: Backend,
                       lookup: string -> DateReply): Step {
    if cfg.role.None? then Step(Declined, notes)
    else
      var role := RoleOf(cfg.role.value);
      if role == Style && cfg.time then StyleStep(uri, prev, notes, cfg.hasDateRegexp)
      else if role == TileMatrixSet then TileStep(uri, prev, notes, cfg, b, lookup)
      else Step(Declined, notes)
  }

  // ---- properties of the passes ----

  /**
   * A STYLE pass that redirects has noted the accepted date and goes to the path without
   * it; every other note is kept.
   */
  lemma StyleRedirect(uri: string, prev: Option<Attempt>, notes: Table, hasDateRegexp: bool, probe: string)
    requires StyleStep(uri, prev, notes, hasDateRegexp).outcome.Redirect?
    ensures var tokens, s := Segments(uri, '/'), StyleStep(uri, prev, notes, hasDateRegexp);
      |tokens| >= 5 && TimeAccepted(tokens[|tokens| - 5])
      && Segments(s.outcome.path, '/') == Without(tokens, |tokens| - 5)
      && Get(s.notes, DateNote) == Some(tokens[|tokens| - 5])
      && (!EqIgnoreCase(DateNote, probe) ==> Get(s.notes, probe) == Get(notes, probe))
  {
    var tokens := Segments(uri, '/');
    var k := |tokens| - 5;
    SegmentsAreSegments(uri, '/');
    var w := Without(tokens, k);
    forall i | 0 <= i < |w| ensures IsSegment(w[i], '/') {
      assert w[i] == if i < k then tokens[i] else tokens[i + 1];
    }
    SegmentsOfJoin(w, '/');
    GetSetSame(notes, DateNote, Some(tokens[k]), DateNote);
    if !EqIgnoreCase(DateNote, probe) {
      GetSetOther(notes, DateNote, Some(tokens[k]), probe);
    }
  }

  /** A first STYLE pass notes the date token and reports it exactly when it is not accepted. */
  lemma StyleTimeCheck(uri: string, prev: Option<Attempt>, notes: Table)
    requires Get(notes, FilenameNote).None? && (prev.None? || Get(prev.value.notes, DateNote).None?)
    requires |Segments(uri, '/')| >= 5
    ensures var tokens, s := Segments(uri, '/'), StyleStep(uri, prev, notes, true);
      Get(s.notes, DateNote) == Some(tokens[|tokens| - 5])
      && (s.outcome == Report([InvalidTime]) <==> !TimeAccepted(tokens[|tokens| - 5]))
  {
    var tokens := Segments(uri, '/');
    GetSetSame(notes, DateNote, Some(tokens[|tokens| - 5]), DateNote);
  }

  /**
   * When the redirected request reaches a STYLE directory again (its TILEMATRIXSET named
   * no such directory), the pass reports the TILEMATRIXSET as invalid.
   */
  lemma StyleSecondPass(uri: string, prev: Option<Attempt>, notes: Table, hasDateRegexp: bool,
                        uri': string, notes': Table, args: Option<string>)
    requires StyleStep(uri, prev, notes, hasDateRegexp).outcome.Redirect?
    ensures var s := StyleStep(uri, prev, notes, hasDateRegexp);
      StyleStep(uri', Some(Attempt(s.notes, args)), notes', hasDateRegexp).outcome == Report([InvalidTileMatrixSet])
  {
    var tokens := Segments(uri, '/');
    GetSetSame(notes, DateNote, Some(tokens[|tokens| - 5]), DateNote);
  }

  /**
   * `pre_hook` changes no note but the date one, and only the STYLE pass of a time-enabled
   * layer changes any.
   */
  lemma PreHookNotes(uri: string, prev: Option<Attempt>, notes: Table, cfg: WrapperConf, b: Backend,
                     lookup: string -> DateReply, probe: string)
    ensures var s := PreHookStep(uri, prev, notes, cfg, b, lookup);
      (!EqIgnoreCase(DateNote, probe) ==> Get(s.notes, probe) == Get(notes, probe))
      && (cfg.role.None? || RoleOf(cfg.role.value) != Style || !cfg.time ==> s.notes == notes)
  {
    if cfg.role.Some? && RoleOf(cfg.role.value) == Style && cfg.time && !EqIgnoreCase(DateNote, probe) {
      var tokens := Segments(uri, '/');
      if |tokens| >= 5 {
        GetSetOther(notes, DateNote, Some(tokens[|tokens| - 5]), probe);
      }
    }
  }

  // ---- the hook ----

  /**
   * `pre_hook` for request `r`, the directory's configuration, its tile back-end and the
   * date service.
   */
  method Hook(r: Request, cfg: WrapperConf, b: Backend, lookup: string -> DateReply) returns (o: Outcome)
    modifies r
    ensures var s := PreHookStep(r.uri, r.prev, old(r.notes), cfg, b, lookup); o == s.outcome && Applied(r, s)
  {
    if cfg.role.None? {
      return Declined;
    }
    var role := RoleOf(cfg.role.value);
    if role == Style && cfg.time {
      o := StylePass(r, cfg.hasDateRegexp);
    } else if role == TileMatrixSet {
      o := TilePass(r, cfg, b, lookup);
    } else {
      o := Declined;
    }
  }

  method StylePass(r: Request, hasDateRegexp: bool) returns (o: Outcome)
    modifies r
    ensures var s := StyleStep(r.uri, r.prev, old(r.notes), hasDateRegexp); o == s.outcome && Applied(r, s)
  {
    if Get(r.notes, FilenameNote).Some? || (r.prev.Some? && Get(r.prev.value.notes, DateNote).Some?) {
      o := ReportOne(r, InvalidTileMatrixSet);
      return;
    }
    var tokens := Tokenize(r.uri, '/');
    var k := |tokens| - 5;
    if k < 0 || !hasDateRegexp {
      return Fault;
    }
    var datetime := tokens[k];
    r.notes := Set(r.notes, DateNote, Some(datetime));
    if !TimeAccepted(datetime) {
      o := ReportOne(r, InvalidTime);
      return;
    }
    if |Join(Without(tokens, k), '/')| >= MaxStringLen {
      return Fault;
    }
    var out := RemoveDateFromUri(tokens);
    o := Redirect(out, false);
  }

  method TilePass(r: Request, cfg: WrapperConf, b: Backend, lookup: string -> DateReply) returns (o: Outcome)
    modifies r
    ensures var s := TileStep(r.uri, r.prev, old(r.notes), cfg, b, lookup); o == s.outcome && Applied(r, s)
  {
    var datetime := if r.prev.Some? then Get(r.prev.value.notes, DateNote) else None;
    var tokens := Tokenize(r.uri, '/');
    if |tokens| < 3 {
      return Fault;
    }
    o := TileChecks(r, tokens, datetime, cfg, b, lookup);
  }

  method TileChecks(r: Request, tokens: seq<string>, datetime: Option<string>, cfg: WrapperConf, b: Backend,
                    lookup: string -> DateReply) returns (o: Outcome)
    requires |tokens| >= 3
    modifies r
    ensures o == TileResult(tokens, datetime, cfg, b, lookup) && Applied(r, Step(o, old(r.notes)))
  {
    var errs := new ErrorArray(Capacity);
    var fault := CheckCoords(tokens, cfg.mimeType, b, errs);
    if fault {
      return Fault;
    }
    o := TileFinish(r, tokens, errs, datetime, cfg, b, lookup);
  }

  method TileFinish(r: Request, tokens: seq<string>, errs: ErrorArray, datetime: Option<string>, cfg: WrapperConf,
                    b: Backend, lookup: string -> DateReply) returns (o: Outcome)
    requires errs.Valid()
    modifies r
    ensures o == TileOutcome(tokens, errs.Contents(), datetime, cfg, b, lookup) && Applied(r, Step(o, old(r.notes)))
  {
    if errs.count > 0 {
      o := ReportAll(r, errs);
    } else {
      o := OverlayPass(r, cfg, b, tokens, datetime, lookup);
    }
  }

  /** The overlay of a time-enabled layer's tile request that passed its checks. */
  method OverlayPass(r: Request, cfg: WrapperConf, b: Backend, tokens: seq<string>, datetime: Option<string>,
                     lookup: string -> DateReply) returns (o: Outcome)
    modifies r
    ensures o == OverlayOutcome(cfg, b, tokens, datetime, lookup)
    ensures r.requestConfig == ConfigAfter(old(r.requestConfig), o) && r.notes == old(r.notes)
    ensures r.body == old(r.body) && r.status == old(r.status) && r.contentType == old(r.contentType)
  {
    o := OverlayOutcome(cfg, b, tokens, datetime, lookup);
    if o.Overlay? {
      r.requestConfig := Some(o.config);
    }
  }

  /**
   * The FORMAT, integer and grid checks, in the order `pre_hook` records them; `fault` when
   * a size is read outside `rsets` or a sixth error overflows `wmts_errors`.
   */
  method CheckCoords(tokens: seq<string>, mime: Option<string>, b: Backend, errs: ErrorArray) returns (fault: bool)
    requires |tokens| >= 3
    requires errs.Valid() && errs.count == 0 && errs.data.Length == Capacity
    modifies errs, errs.data
    ensures fault == TileFault(tokens, mime, b)
    ensures errs.Valid() && (!fault ==> errs.Contents() == CoordErrorsAsWritten(tokens, mime, b))
  {
    var col, row, level := tokens[|tokens| - 1], tokens[|tokens| - 2], tokens[|tokens| - 3];
    CheckFormat(col, mime, errs);
    ghost var c0 := FormatCheck(col, mime);
    CheckInteger(col, "TILECOL", errs);
    ghost var c1 := c0 + IntegerCheck(col, "TILECOL");
    assert errs.Contents() == c1;
    CheckInteger(row, "TILEROW", errs);
    ghost var c2 := c1 + IntegerCheck(row, "TILEROW");
    assert errs.Contents() == c2;
    CheckInteger(level, "TILEMATRIX", errs);
    ghost var c3 := c2 + IntegerCheck(level, "TILEMATRIX");
    assert errs.Contents() == c3 == TokenErrors(tokens, mime);
    fault := CheckBounds(b, TileValue(col), TileValue(row), TileValue(level), errs);
    assert |CoordErrorsAsWritten(tokens, mime, b)|
      == |c3| + |BoundsErrorsAsWritten(b, TileValue(col), TileValue(row), TileValue(level))|;
  }

  method CheckFormat(col: string, mime: Option<string>, errs: ErrorArray)
    requires errs.Valid() && errs.count < errs.data.Length
    modifies errs, errs.data
    ensures errs.Valid() && errs.Contents() == old(errs.Contents()) + FormatCheck(col, mime)
  {
    var ext := SplitAtChar(col, '.').1;
    if ext != [] && mime.Some? && !CheckValidExtension(mime, ext) {
      errs.Push(InvalidFormat);
    }
  }

  method CheckInteger(token: string, name: string, errs: ErrorArray)
    requires errs.Valid() && errs.count < errs.data.Length
    modifies errs, errs.data
    ensures errs.Valid() && errs.Contents() == old(errs.Contents()) + IntegerCheck(token, name)
  {
    if token == [] || !IsDigit(token[0]) {
      errs.Push(NotInteger(name));
    }
  }

  /**
   * The grid checks as written: the level is checked with `>` and its size read whatever the
   * outcome; `fault` when that read is outside `rsets` or an error overflows the array.
   */
  method CheckBounds(b: Backend, x: int, y: int, l: int, errs: ErrorArray) returns (fault: bool)
    requires errs.Valid() && errs.count < errs.data.Length
    modifies errs, errs.data
    ensures fault == (GridFaultAsWritten(b, l) || old(errs.count) + |BoundsErrorsAsWritten(b, x, y, l)| > errs.data.Length)
    ensures errs.Valid() && (!fault ==> errs.Contents() == old(errs.Contents()) + BoundsErrorsAsWritten(b, x, y, l))
  {
    var n := NLevels(b);
    if n == 0 {
      return false;
    }
    ghost var c0 := errs.Contents();
    if l > n || l < 0 {
      errs.Push(OutOfRange("TILEMATRIX", n - 1));
    }
    ghost var c1 := c0 + LevelCheckAsWritten(l, n);
    assert errs.Contents() == c1;
    var dims := LevelDims(b, l);
    if dims.None? {
      return true;
    }
    fault := CheckDims(dims.value, x, y, errs);
    assert BoundsErrorsAsWritten(b, x, y, l) == LevelCheckAsWritten(l, n) + DimsCheck(dims, x, y);
  }

  /** The column check, and the row check only when the column passed. */
  method CheckDims(d: Dim, x: int, y: int, errs: ErrorArray) returns (fault: bool)
    requires errs.Valid()
    modifies errs, errs.data
    ensures fault == (old(errs.count) + |DimsCheck(Some(d), x, y)| > errs.data.Length)
    ensures errs.Valid() && (!fault ==> errs.Contents() == old(errs.Contents()) + DimsCheck(Some(d), x, y))
  {
    if x >= d.width || x < 0 {
      fault := errs.Record(OutOfRange("TILECOL", d.width - 1));
    } else if y >= d.height || y < 0 {
      fault := errs.Record(OutOfRange("TILEROW", d.height - 1));
    } else {
      fault := false;
    }
  }
}
