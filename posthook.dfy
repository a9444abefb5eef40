/**
 * `post_hook`, the handler that runs last: a request nothing else served is answered by
 * the role of the directory it ended in, with a blank tile for a tile mod_onearth could not
 * serve, the key-value handler for a query, or the error that role implies.
 */
module PostHook {
  import opened Wrappers
  import opened Strings
  import opened Paths
  import opened Tables
  import opened Errors
  import opened Config
  import opened Requests
  import opened Kvp
  import opened KvpProperties

  const LayerMissing: WmtsError := MakeError(400, "InvalidParameterValue", "LAYER", "LAYER does not exist")
  const StyleInvalid: WmtsError := MakeError(400, "InvalidParameterValue", "STYLE", "STYLE is invalid for LAYER")

  // ---- get_blank_tile_filename ----

  /** `apr_strnatcasecmp(param, name) == 0` for a FORMAT that may be absent; an absent one matches nothing. */
  predicate FormatIs(format: Option<string>, name: string) {
    format.Some? && EqIgnoreCase(format.value, name)
  }

  /**
   * The blank tile for a request, chosen by its FORMAT parameter or by the last four
   * characters of its URI, trying JPEG, PNG, Mapbox and protobuf in that order.
   */
  function BlankTileName(format: Option<string>, ending: string): Option<string> {
    if FormatIs(format, JpegMime) || EqIgnoreCase(ending, ".jpg") then Some("black.jpg")
    else if FormatIs(format, PngMime) || EqIgnoreCase(ending, ".png") then Some("transparent.png")
    else if FormatIs(format, MapboxMime) || EqIgnoreCase(ending, ".mvt") then Some("empty.mvt")
    else if FormatIs(format, ProtobufMime) || EqIgnoreCase(ending, ".pbf") then Some("empty.mvt")
    else None
  }

  /** Reference definition: each FORMAT value and URI ending with its blank tile, in the order they are tried. */
  const BlankTiles: seq<(string, string, string)> := [
    (JpegMime, ".jpg", "black.jpg"),
    (PngMime, ".png", "transparent.png"),
    (MapboxMime, ".mvt", "empty.mvt"),
    (ProtobufMime, ".pbf", "empty.mvt")
  ]

  /** The first row of `BlankTiles` from `i` on that the request matches. */
  function FirstBlankTile(format: Option<string>, ending: string, i: nat): Option<string>
    decreases |BlankTiles| - i
  {
    if i >= |BlankTiles| then None
    else if FormatIs(format, BlankTiles[i].0) || EqIgnoreCase(ending, BlankTiles[i].1) then Some(BlankTiles[i].2)
    else FirstBlankTile(format, ending, i + 1)
  }

  lemma BlankTileTable(format: Option<string>, ending: string)
    ensures BlankTileName(format, ending) == FirstBlankTile(format, ending, 0)
  {
    assert FirstBlankTile(format, ending, 4) == None;
  }

  /**
   * The root role after mod_onearth failed: `get_blank_tile_filename` reads the four
   * characters before the URI's end (undefined for a shorter URI) and the FORMAT query
   * parameter; with a blank tile the request is redirected to it beside the URI, and the
   * hook declines either way.
   */
  function BlankTileStep(uri: string, args: Option<string>, notes: Table, unescape: string -> string): Step {
    if |uri| < 4 then Step(Fault, notes)
    else
      match BlankTileName(Get(ParseArgs(args, unescape), "FORMAT"), uri[|uri| - 4..])
      case None => Step(Declined, notes)
      case Some(name) => Step(Redirect(BaseUri(uri) + "/" + name, false), notes)
  }

  /**
   * As written, the FORMAT value is compared first, with `apr_strnatcasecmp`, which
   * dereferences it: a request without FORMAT is undefined.
   */
  function BlankTileStepAsWritten(uri: string, args: Option<string>, notes: Table, unescape: string -> string): Step {
    if |uri| >= 4 && Get(ParseArgs(args, unescape), "FORMAT").None? then Step(Fault, notes)
    else BlankTileStep(uri, args, notes, unescape)
  }

  // ---- post_hook ----

  /**
   * The root role: a tile mod_onearth failed gets its blank tile, a query goes to
   * handleKvP, and anything else names no layer.
   */
  function RootStep(uri: string, args: Option<string>, notes: Table, cfg: WrapperConf, unescape: string -> string): Step {
    if Get(notes, FailedNote).Some? then BlankTileStepAsWritten(uri, args, notes, unescape)
    else if args.Some? then KvpStep(ParseArgs(args, unescape), BaseUri(uri), notes, cfg.hasDateRegexp)
    else Step(Report([LayerMissing]), notes)
  }

  /** What `post_hook` does, by the role of the directory the request ended in. */
  function PostHookStep(uri: string, args: Option<string>, prev: Option<Attempt>, fileExists: bool, notes: Table,
                        cfg: WrapperConf, unescape: string -> string): Step {
    if cfg.role.None? || fileExists then Step(Declined, notes)
    else
      match RoleOf(cfg.role.value)
      case Root => RootStep(uri, args, notes, cfg, unescape)
      case Layer =>
        if prev.Some? && Get(prev.value.notes, DateNote).Some? && prev.value.args.None? then
          Step(Report([InvalidTileMatrixSet]), notes)
        else Step(Report([StyleInvalid]), notes)
      case Style => Step(Report([InvalidTileMatrixSet]), notes)
      case TileMatrixSet => Step(Declined, notes)
      case OtherRole => Step(Declined, notes)
  }

  // ---- properties ----

  /** The four ways of asking for a tile, each by its FORMAT or by its file ending. */
  lemma BlankTileChoices(format: Option<string>, ending: string)
    ensures FormatIs(format, JpegMime) || EqIgnoreCase(ending, ".jpg") ==> BlankTileName(format, ending) == Some("black.jpg")
    ensures BlankTileName(format, ending).Some? <==>
      exists i :: 0 <= i < |BlankTiles| && (FormatIs(format, BlankTiles[i].0) || EqIgnoreCase(ending, BlankTiles[i].1))
    ensures BlankTileName(format, ending).Some? ==>
      BlankTileName(format, ending).value in {"black.jpg", "transparent.png", "empty.mvt"}
  {
    if BlankTileName(format, ending).Some? {
      if FormatIs(format, JpegMime) || EqIgnoreCase(ending, ".jpg") {
        assert BlankTiles[0].0 == JpegMime && BlankTiles[0].1 == ".jpg";
      } else if FormatIs(format, PngMime) || EqIgnoreCase(ending, ".png") {
        assert BlankTiles[1].0 == PngMime && BlankTiles[1].1 == ".png";
      } else if FormatIs(format, MapboxMime) || EqIgnoreCase(ending, ".mvt") {
        assert BlankTiles[2].0 == MapboxMime && BlankTiles[2].1 == ".mvt";
      } else {
        assert BlankTiles[3].0 == ProtobufMime && BlankTiles[3].1 == ".pbf";
      }
    }
  }

  /**
   * A REST request for a PNG tile that mod_onearth failed, with no query string, is sent
   * to the transparent tile; as written the missing FORMAT is dereferenced instead.
   */
  lemma BlankTileWithoutFormatAsWritten(uri: string, notes: Table, unescape: string -> string)
    requires |uri| >= 4 && uri[|uri| - 4..] == ".png"
    ensures BlankTileStepAsWritten(uri, None, notes, unescape).outcome == Fault
    ensures BlankTileStep(uri, None, notes, unescape).outcome == Redirect(BaseUri(uri) + "/" + "transparent.png", false)
  {
    assert ParseArgs(None, unescape) == [];
    var format := Get(ParseArgs(None, unescape), "FORMAT");
    PngEnding();
    assert BlankTileName(format, uri[|uri| - 4..]) == Some("transparent.png");
  }

  lemma PngEnding()
    ensures BlankTileName(None, ".png") == Some("transparent.png")
  {
    assert EqIgnoreCase(".png", ".png");
    assert !EqIgnoreCase(".png", ".jpg") by {
      assert Lower(".png")[1] != Lower(".jpg")[1];
    }
  }

  /** A request for a file that exists is left to Apache, whatever the role. */
  lemma ExistingFileDeclined(uri: string, args: Option<string>, prev: Option<Attempt>, notes: Table,
                             cfg: WrapperConf, unescape: string -> string)
    ensures PostHookStep(uri, args, prev, true, notes, cfg, unescape) == Step(Declined, notes)
  {
  }

  /**
   * At the root, a query that mod_onearth did not fail goes to handleKvP, which always
   * answers; a root request with neither names no layer.
   */
  lemma RootQuery(uri: string, args: Option<string>, prev: Option<Attempt>, notes: Table, cfg: WrapperConf,
                  unescape: string -> string)
    requires cfg.role.Some? && RoleOf(cfg.role.value) == Root && Get(notes, FailedNote).None?
    ensures var s := PostHookStep(uri, args, prev, false, notes, cfg, unescape);
      (args.Some? ==> s == KvpStep(ParseArgs(args, unescape), BaseUri(uri), notes, cfg.hasDateRegexp)
                      && s.outcome != Declined)
      && (args.None? ==> s == Step(Report([LayerMissing]), notes))
  {
    if args.Some? {
      KvpNeverDeclines(ParseArgs(args, unescape), BaseUri(uri), notes, cfg.hasDateRegexp);
    }
  }

  /**
   * A request stuck in a LAYER directory names a bad TILEMATRIXSET exactly when it came
   * from a REST date redirect (a date was noted and there was no query), and a bad STYLE
   * otherwise.
   */
  lemma LayerRoleError(uri: string, args: Option<string>, prev: Option<Attempt>, notes: Table, cfg: WrapperConf,
                       unescape: string -> string)
    requires cfg.role.Some? && RoleOf(cfg.role.value) == Layer
    ensures var s := PostHookStep(uri, args, prev, false, notes, cfg, unescape);
      s.outcome.Report? && |s.outcome.errors| == 1 && s.notes == notes
      && (s.outcome.errors[0].locator == "TILEMATRIXSET" <==>
          prev.Some? && Get(prev.value.notes, DateNote).Some? && prev.value.args.None?)
      && (s.outcome.errors[0].locator != "TILEMATRIXSET" ==> s.outcome.errors[0] == StyleInvalid)
  {
    assert InvalidTileMatrixSet.locator != StyleInvalid.locator;
  }

  /**
   * Only handleKvP's GetTile redirect changes the notes, and then only the date; every
   * other path leaves them alone.
   */
  lemma PostHookNotes(uri: string, args: Option<string>, prev: Option<Attempt>, fileExists: bool, notes: Table,
                      cfg: WrapperConf, unescape: string -> string, probe: string)
    requires !EqIgnoreCase(probe, DateNote)
    ensures Get(PostHookStep(uri, args, prev, fileExists, notes, cfg, unescape).notes, probe) == Get(notes, probe)
  {
    if cfg.role.Some? && !fileExists && RoleOf(cfg.role.value) == Root && Get(notes, FailedNote).None? && args.Some? {
      var t := ParseArgs(args, unescape);
      if !TimeNeedsMissingPattern(t, cfg.hasDateRegexp) && IsGetTile(t) && KvpErrors(t) == [] {
        GetTileRedirect(t, BaseUri(uri), notes, cfg.hasDateRegexp, probe);
      }
    }
  }

  // ---- the hook ----

  /** `post_hook` for request `r` and the directory's configuration. */
  method Hook(r: Request, cfg: WrapperConf, unescape: string -> string) returns (o: Outcome)
    modifies r
    ensures var s := PostHookStep(r.uri, r.args, r.prev, r.fileExists, old(r.notes), cfg, unescape);
      o == s.outcome && Applied(r, s)
  {
    if cfg.role.None? || r.fileExists {
      return Declined;
    }
    var role := RoleOf(cfg.role.value);
    if role == Root {
      o := RootPass(r, cfg, unescape);
    } else if role == Layer {
      if r.prev.Some? && Get(r.prev.value.notes, DateNote).Some? && r.prev.value.args.None? {
        o := ReportOne(r, InvalidTileMatrixSet);
      } else {
        o := ReportOne(r, StyleInvalid);
      }
    } else if role == Style {
      o := ReportOne(r, InvalidTileMatrixSet);
    } else {
      o := Declined;
    }
  }

  method RootPass(r: Request, cfg: WrapperConf, unescape: string -> string) returns (o: Outcome)
    modifies r
    ensures var s := RootStep(r.uri, r.args, old(r.notes), cfg, unescape); o == s.outcome && Applied(r, s)
  {
    if Get(r.notes, FailedNote).Some? {
      o := BlankTile(r, unescape);
    } else if r.args.Some? {
      o := HandleKvp(r, cfg, unescape);
    } else {
      o := ReportOne(r, LayerMissing);
    }
  }

  /** `get_blank_tile_filename` and the redirect to the blank tile. */
  method BlankTile(r: Request, unescape: string -> string) returns (o: Outcome)
    modifies r
    ensures var s := BlankTileStepAsWritten(r.uri, r.args, old(r.notes), unescape); o == s.outcome && Applied(r, s)
  {
    if |r.uri| < 4 {
      return Fault;
    }
    var ending := r.uri[|r.uri| - 4..];
    var t := ArgsToTable(r.args, unescape);
    var format := Get(t, "FORMAT");
    if format.None? {
      return Fault;
    }
    var name := BlankTileName(format, ending);
    if name.None? {
      return Declined;
    }
    var base := GetBaseUri(r.uri);
    o := Redirect(base + "/" + name.value, false);
  }
}
