/**
 * `handleKvP`: validates a KVP request (OGC 07-057r7, clause 7.2.4) and either reports
 * the errors it found, redirects a GetTile request to its REST path, or redirects a
 * GetCapabilities or GetTileService request to the static document.
 */
module Kvp {
  import opened Wrappers
  import opened Strings
  import opened Paths
  import opened Tables
  import opened Errors
  import opened Config
  import opened Requests

  /** `(param = apr_table_get(t, name)) && strlen(param)`: a value that is present and non-empty. */
  function Param(t: Table, name: string): Option<string> {
    match Get(t, name)
    case Some(v) => if v != [] then Some(v) else None
    case None => None
  }

  // ---- the errors handleKvP can record ----

  function Missing(name: string): WmtsError {
    MakeError(400, "MissingParameterValue", name, "Missing " + name + " parameter")
  }

  const InvalidVersion: WmtsError := MakeError(400, "InvalidParameterValue", "VERSION", "VERSION is invalid")
  const UnsupportedRequest: WmtsError :=
    MakeError(501, "OperationNotSupported", "REQUEST", "The request type is not supported")
  const InvalidService: WmtsError := MakeError(400, "InvalidParameterValue", "SERVICE", "Unrecognized service")

  /** The alias key under which mod_onearth can leave SERVICE. */
  const ServiceAlias: string := "wmts.cgi?SERVICE"

  // ---- one check per parameter, in the order handleKvP runs them ----

  function VersionErrors(t: Table): (r: seq<WmtsError>)
    ensures |r| <= 1
  {
    match Param(t, "VERSION")
    case None => [Missing("VERSION")]
    case Some(v) => if EqIgnoreCase(v, "1.0.0") then [] else [InvalidVersion]
  }

  function TimeErrors(t: Table): (r: seq<WmtsError>)
    ensures |r| <= 1
  {
    match Param(t, "TIME")
    case None => []
    case Some(v) => if TimeAccepted(v) then [] else [InvalidTime]
  }

  predicate KnownRequest(v: string) {
    EqIgnoreCase(v, "GetCapabilities") || EqIgnoreCase(v, "GetTile") || EqIgnoreCase(v, "GetTileService")
  }

  function RequestErrors(t: Table): (r: seq<WmtsError>)
    ensures |r| <= 1
  {
    match Param(t, "REQUEST")
    case None => [Missing("REQUEST")]
    case Some(v) => if KnownRequest(v) then [] else [UnsupportedRequest]
  }

  /** The variable `request`: the REQUEST value once it passed its check. */
  function RequestOf(t: Table): (r: Option<string>)
    ensures r.Some? ==> KnownRequest(r.value)
  {
    match Param(t, "REQUEST")
    case None => None
    case Some(v) => if KnownRequest(v) then Some(v) else None
  }

  predicate IsGetTile(t: Table) {
    RequestOf(t).Some? && EqIgnoreCase(RequestOf(t).value, "GetTile")
  }

  predicate IsGetCapabilities(t: Table) {
    RequestOf(t).Some? && EqIgnoreCase(RequestOf(t).value, "GetCapabilities")
  }

  predicate IsGetTileService(t: Table) {
    RequestOf(t).Some? && EqIgnoreCase(RequestOf(t).value, "GetTileService")
  }

  function LayerErrors(t: Table): (r: seq<WmtsError>)
    ensures |r| <= 1
  {
    if Param(t, "LAYER").None? && RequestOf(t).Some?
       && !EqIgnoreCase(RequestOf(t).value, "GetCapabilities")
       && !EqIgnoreCase(RequestOf(t).value, "GetTileService")
    then [Missing("LAYER")]
    else []
  }

  /** SERVICE, or, only when SERVICE is NULL, the alias key. */
  function ServiceValue(t: Table): Option<string> {
    if Get(t, "SERVICE").Some? then Get(t, "SERVICE") else Get(t, ServiceAlias)
  }

  function ServiceErrors(t: Table): (r: seq<WmtsError>)
    ensures |r| <= 1
  {
    match ServiceValue(t)
    case Some(v) =>
      if v == [] then [Missing("SERVICE")]
      else if EqIgnoreCase(v, "WMTS") then [] else [InvalidService]
    case None => [Missing("SERVICE")]
  }

  /** The FORMAT values handleKvP knows, and the tile extension each one maps to. */
  function FormatExtension(f: string): Option<string> {
    if EqIgnoreCase(f, JpegMime) then Some(".jpg")
    else if EqIgnoreCase(f, PngMime) then Some(".png")
    else if EqIgnoreCase(f, TiffMime) then Some(".tiff")
    else if EqIgnoreCase(f, LercMime) then Some(".lerc")
    else if EqIgnoreCase(f, ProtobufMime) then Some(".pbf")
    else if EqIgnoreCase(f, MapboxMime) then Some(".mvt")
    else None
  }

  function FormatErrors(t: Table): (r: seq<WmtsError>)
    ensures |r| <= 1
  {
    match Param(t, "FORMAT")
    case None => [Missing("FORMAT")]
    case Some(f) => if FormatExtension(f).Some? then [] else [InvalidFormat]
  }

  function RequiredErrors(t: Table, name: string): (r: seq<WmtsError>)
    ensures |r| <= 1
  {
    if Param(t, name).None? then [Missing(name)] else []
  }

  /** The checks every request goes through: VERSION, TIME, REQUEST, LAYER, SERVICE. */
  function CommonErrors(t: Table): seq<WmtsError> {
    VersionErrors(t) + TimeErrors(t) + RequestErrors(t) + LayerErrors(t) + ServiceErrors(t)
  }

  /** The checks GetTile adds: FORMAT, TILEMATRIXSET, TILEMATRIX, TILEROW, TILECOL. */
  function TileErrors(t: Table): seq<WmtsError> {
    FormatErrors(t) + RequiredErrors(t, "TILEMATRIXSET") + RequiredErrors(t, "TILEMATRIX")
    + RequiredErrors(t, "TILEROW") + RequiredErrors(t, "TILECOL")
  }

  /** Every error handleKvP records, in the order it records them. */
  function KvpErrors(t: Table): seq<WmtsError> {
    CommonErrors(t) + (if IsGetTile(t) then TileErrors(t) else [])
  }

  function OrDefault(v: Option<string>): string {
    match v case Some(s) => s case None => "default"
  }

  /** `%s/%s/%s/%s/%s/%s/%s%s` of the base URI, LAYER, STYLE, TILEMATRIXSET, TILEMATRIX, TILEROW, TILECOL and the extension. */
  function TilePath(base: string, layer: string, style: string, tms: string, matrix: string, row: string, col: string, ext: string): string {
    base + "/" + layer + "/" + style + "/" + tms + "/" + matrix + "/" + row + "/" + col + ext
  }

  /** TIME uses the compiled date pattern; with none compiled `ap_regexec` dereferences NULL. */
  predicate TimeNeedsMissingPattern(t: Table, hasDateRegexp: bool) {
    Param(t, "TIME").Some? && !hasDateRegexp
  }

  /** What the GetTile branch of handleKvP does once every check has run. */
  function GetTileStep(t: Table, base: string, notes: Table): Step {
    if KvpErrors(t) != [] then Step(Report(KvpErrors(t)), notes)
    else
      var path := TilePath(base, OrDefault(Param(t, "LAYER")), OrDefault(Param(t, "STYLE")),
        OrDefault(Param(t, "TILEMATRIXSET")), OrDefault(Param(t, "TILEMATRIX")), OrDefault(Param(t, "TILEROW")),
        OrDefault(Param(t, "TILECOL")), OrDefault(FormatExtension(OrDefault(Param(t, "FORMAT")))));
      Step(Redirect(path, true), Set(notes, DateNote, Some(OrDefault(Param(t, "TIME")))))
  }

  /**
   * What handleKvP does for the parsed query `t`, the base URI `base` and the request's
   * notes.
   */
  function KvpStep(t: Table, base: string, notes: Table, hasDateRegexp: bool): Step {
    if TimeNeedsMissingPattern(t, hasDateRegexp) then Step(Fault, notes)
    else if IsGetTile(t) then GetTileStep(t, base, notes)
    else if IsGetCapabilities(t) then Step(Redirect(base + "/getCapabilities.xml", false), notes)
    else if IsGetTileService(t) then Step(Redirect(base + "/getTileService.xml", false), notes)
    else if KvpErrors(t) != [] then Step(Report(KvpErrors(t)), notes)
    else Step(Declined, notes)
  }

  /** `apr_table_get` followed by the `strlen` test of handleKvP. */
  method GetParam(t: Table, name: string) returns (v: Option<string>)
    ensures v == Param(t, name)
  {
    var param := Get(t, name);
    if param.Some? && |param.value| > 0 {
      v := param;
    } else {
      v := None;
    }
  }

  /** The VERSION check. */
  method CheckVersion(t: Table, errs: ErrorArray)
    requires errs.Valid() && errs.count < errs.data.Length
    modifies errs, errs.data
    ensures errs.Valid() && errs.Contents() == old(errs.Contents()) + VersionErrors(t)
  {
    var param := GetParam(t, "VERSION");
    if param.Some? {
      if !EqIgnoreCase(param.value, "1.0.0") {
        errs.Push(InvalidVersion);
      }
    } else {
      errs.Push(Missing("VERSION"));
    }
  }

  /** The TIME check; `ok` is false where `ap_regexec` would be given no compiled pattern. */
  method CheckTime(t: Table, hasDateRegexp: bool, errs: ErrorArray) returns (time: Option<string>, ok: bool)
    requires errs.Valid() && errs.count < errs.data.Length
    modifies errs, errs.data
    ensures time == Param(t, "TIME") && ok == !TimeNeedsMissingPattern(t, hasDateRegexp)
    ensures errs.Valid() && (ok ==> errs.Contents() == old(errs.Contents()) + TimeErrors(t))
  {
    time := GetParam(t, "TIME");
    ok := true;
    if time.Some? {
      if !hasDateRegexp {
        ok := false;
        return;
      }
      if !TimeAccepted(time.value) {
        errs.Push(InvalidTime);
      }
    }
  }

  /** The REQUEST check; `request` is the value once it passed. */
  method CheckRequest(t: Table, errs: ErrorArray) returns (request: Option<string>)
    requires errs.Valid() && errs.count < errs.data.Length
    modifies errs, errs.data
    ensures request == RequestOf(t)
    ensures errs.Valid() && errs.Contents() == old(errs.Contents()) + RequestErrors(t)
  {
    request := None;
    var param := GetParam(t, "REQUEST");
    if param.Some? {
      if !KnownRequest(param.value) {
        errs.Push(UnsupportedRequest);
      } else {
        request := param;
      }
    } else {
      errs.Push(Missing("REQUEST"));
    }
  }

  /** The LAYER check: LAYER may be left out only of a request that is not GetTile. */
  method CheckLayer(t: Table, request: Option<string>, errs: ErrorArray) returns (layer: Option<string>)
    requires request == RequestOf(t)
    requires errs.Valid() && errs.count < errs.data.Length
    modifies errs, errs.data
    ensures layer == Param(t, "LAYER")
    ensures errs.Valid() && errs.Contents() == old(errs.Contents()) + LayerErrors(t)
  {
    layer := GetParam(t, "LAYER");
    if layer.None? {
      if request.Some? && !EqIgnoreCase(request.value, "GetCapabilities")
         && !EqIgnoreCase(request.value, "GetTileService") {
        errs.Push(Missing("LAYER"));
      }
    }
  }

  /** The SERVICE check, falling back to the alias key only when SERVICE is NULL. */
  method CheckService(t: Table, errs: ErrorArray)
    requires errs.Valid() && errs.count < errs.data.Length
    modifies errs, errs.data
    ensures errs.Valid() && errs.Contents() == old(errs.Contents()) + ServiceErrors(t)
  {
    var param := Get(t, "SERVICE");
    if param.None? {
      param := Get(t, ServiceAlias);
    }
    assert param == ServiceValue(t);
    if param.Some? && |param.value| > 0 {
      if !EqIgnoreCase(param.value, "WMTS") {
        errs.Push(InvalidService);
      }
    } else {
      errs.Push(Missing("SERVICE"));
    }
  }

  /** At most one of the REQUEST and LAYER checks fires, so at most four common errors. */
  lemma CommonErrorsBound(t: Table)
    ensures |CommonErrors(t)| <= 4
  {
    assert LayerErrors(t) == [] || RequestErrors(t) == [];
  }

  /**
   * `handleKvP`: parses `r->args`, runs every check into a ten-slot error array, then
   * redirects or reports.
   */
  method HandleKvp(r: Request, cfg: WrapperConf, unescape: string -> string) returns (o: Outcome)
    modifies r
    ensures var s := KvpStep(ParseArgs(r.args, unescape), BaseUri(r.uri), old(r.notes), cfg.hasDateRegexp);
      o == s.outcome && Applied(r, s)
  {
    var t := ArgsToTable(r.args, unescape);
    var errs := new ErrorArray(10);
    var style, time, ok, request, layer := CheckCommon(t, cfg.hasDateRegexp, errs);
    if !ok {
      return Fault;
    }
    o := Dispatch(r, t, cfg.hasDateRegexp, errs, request, layer, style, time);
  }

  /** The VERSION, STYLE, TIME, REQUEST, LAYER and SERVICE steps of handleKvP. */
  method CheckCommon(t: Table, hasDateRegexp: bool, errs: ErrorArray)
      returns (style: Option<string>, time: Option<string>, ok: bool, request: Option<string>, layer: Option<string>)
    requires errs.Valid() && errs.data.Length == 10 && errs.count == 0
    modifies errs, errs.data
    ensures ok == !TimeNeedsMissingPattern(t, hasDateRegexp)
    ensures errs.Valid() && errs.data.Length == 10
    ensures ok ==> errs.Contents() == CommonErrors(t) && errs.count <= 4
    ensures style == Param(t, "STYLE") && time == Param(t, "TIME")
    ensures request == RequestOf(t) && layer == Param(t, "LAYER")
  {
    request, layer := None, None;
    CheckVersion(t, errs);
    ghost var v := VersionErrors(t);
    assert errs.Contents() == v;
    style := GetParam(t, "STYLE");
    time, ok := CheckTime(t, hasDateRegexp, errs);
    if !ok {
      request := RequestOf(t);
      layer := Param(t, "LAYER");
      return;
    }
    ghost var vt := v + TimeErrors(t);
    assert errs.Contents() == vt;
    request := CheckRequest(t, errs);
    ghost var vtr := vt + RequestErrors(t);
    assert errs.Contents() == vtr;
    layer := CheckLayer(t, request, errs);
    ghost var vtrl := vtr + LayerErrors(t);
    assert errs.Contents() == vtrl;
    CheckService(t, errs);
    assert errs.Contents() == vtrl + ServiceErrors(t);
    CommonErrorsBound(t);
  }

  /** The end of handleKvP: GetTile, the two document requests, or the error report. */
  method Dispatch(r: Request, t: Table, hasDateRegexp: bool, errs: ErrorArray, request: Option<string>,
      layer: Option<string>, style: Option<string>, time: Option<string>) returns (o: Outcome)
    requires !TimeNeedsMissingPattern(t, hasDateRegexp)
    requires errs.Valid() && errs.data.Length == 10 && errs.Contents() == CommonErrors(t) && errs.count <= 4
    requires style == Param(t, "STYLE") && time == Param(t, "TIME")
    requires request == RequestOf(t) && layer == Param(t, "LAYER")
    modifies r, errs, errs.data
    ensures var s := KvpStep(t, BaseUri(r.uri), old(r.notes), hasDateRegexp); o == s.outcome && Applied(r, s)
  {
    if request.Some? && EqIgnoreCase(request.value, "GetTile") {
      o := HandleGetTile(r, t, errs, layer, OrDefault(style), time);
    } else {
      o := DispatchOther(r, t, hasDateRegexp, errs, request);
    }
  }

  /** The end of handleKvP for a request that is not GetTile. */
  method DispatchOther(r: Request, t: Table, hasDateRegexp: bool, errs: ErrorArray, request: Option<string>)
      returns (o: Outcome)
    requires !TimeNeedsMissingPattern(t, hasDateRegexp) && !IsGetTile(t)
    requires errs.Valid() && errs.Contents() == CommonErrors(t)
    requires request == RequestOf(t)
    modifies r
    ensures var s := KvpStep(t, BaseUri(r.uri), old(r.notes), hasDateRegexp); o == s.outcome && Applied(r, s)
  {
    KvpStepNotTile(t, BaseUri(r.uri), r.notes, hasDateRegexp);
    if request.Some? && EqIgnoreCase(request.value, "GetCapabilities") {
      var base := GetBaseUri(r.uri);
      o := Redirect(base + "/getCapabilities.xml", false);
    } else if request.Some? && EqIgnoreCase(request.value, "GetTileService") {
      var base := GetBaseUri(r.uri);
      o := Redirect(base + "/getTileService.xml", false);
    } else if errs.count > 0 {
      ReturnAllErrors(r, errs);
      o := Report(errs.Contents());
    } else {
      o := Declined;
    }
  }

  /** handleKvP for a request other than GetTile: the error array holds the common errors only. */
  lemma KvpStepNotTile(t: Table, base: string, notes: Table, hasDateRegexp: bool)
    requires !TimeNeedsMissingPattern(t, hasDateRegexp) && !IsGetTile(t)
    ensures KvpStep(t, base, notes, hasDateRegexp)
         == if IsGetCapabilities(t) then Step(Redirect(base + "/getCapabilities.xml", false), notes)
            else if IsGetTileService(t) then Step(Redirect(base + "/getTileService.xml", false), notes)
            else if CommonErrors(t) != [] then Step(Report(CommonErrors(t)), notes)
            else Step(Declined, notes)
  {
    assert KvpErrors(t) == CommonErrors(t);
  }

  /** The GetTile branch of handleKvP, after the checks every request goes through. */
  method HandleGetTile(r: Request, t: Table, errs: ErrorArray, layer: Option<string>, style: string, time: Option<string>)
      returns (o: Outcome)
    requires IsGetTile(t)
    requires errs.Valid() && errs.data.Length == 10 && errs.Contents() == CommonErrors(t) && errs.count <= 4
    requires layer == Param(t, "LAYER")
    requires style == OrDefault(Param(t, "STYLE")) && time == Param(t, "TIME")
    modifies r, errs, errs.data
    ensures var s := GetTileStep(t, BaseUri(r.uri), old(r.notes)); o == s.outcome && Applied(r, s)
  {
    var format, tms, matrix, row, col := CheckTileParams(t, errs);
    if errs.count > 0 {
      ReturnAllErrors(r, errs);
      return Report(errs.Contents());
    }
    o := RedirectTile(r, t, layer, style, time, format, tms, matrix, row, col);
  }

  /** A GetTile request without errors goes to its REST path, with the date noted. */
  method RedirectTile(r: Request, t: Table, layer: Option<string>, style: string, time: Option<string>,
      format: Option<string>, tms: Option<string>, matrix: Option<string>, row: Option<string>, col: Option<string>)
      returns (o: Outcome)
    requires IsGetTile(t) && KvpErrors(t) == []
    requires layer == Param(t, "LAYER")
    requires style == OrDefault(Param(t, "STYLE")) && time == Param(t, "TIME")
    requires format == (if Param(t, "FORMAT").Some? then FormatExtension(Param(t, "FORMAT").value) else None)
    requires tms == Param(t, "TILEMATRIXSET") && matrix == Param(t, "TILEMATRIX")
    requires row == Param(t, "TILEROW") && col == Param(t, "TILECOL")
    modifies r
    ensures var s := GetTileStep(t, BaseUri(r.uri), old(r.notes)); o == s.outcome && Applied(r, s)
  {
    NoTileErrors(t);
    var base := GetBaseUri(r.uri);
    var path := TilePath(base, layer.value, style, tms.value, matrix.value, row.value, col.value, format.value);
    var notes := Set(r.notes, DateNote, Some(OrDefault(time)));
    GetTileStepRedirect(t, base, r.notes, path, notes);
    r.notes := notes;
    o := Redirect(path, true);
  }

  lemma GetTileStepRedirect(t: Table, base: string, notes: Table, path: string, notes': Table)
    requires KvpErrors(t) == []
    requires path == TilePath(base, OrDefault(Param(t, "LAYER")), OrDefault(Param(t, "STYLE")),
        OrDefault(Param(t, "TILEMATRIXSET")), OrDefault(Param(t, "TILEMATRIX")), OrDefault(Param(t, "TILEROW")),
        OrDefault(Param(t, "TILECOL")), OrDefault(FormatExtension(OrDefault(Param(t, "FORMAT")))))
    requires notes' == Set(notes, DateNote, Some(OrDefault(Param(t, "TIME"))))
    ensures GetTileStep(t, base, notes) == Step(Redirect(path, true), notes')
  {
  }

  /** A GetTile request with no errors carries every parameter its path is built from. */
  lemma NoTileErrors(t: Table)
    requires IsGetTile(t) && KvpErrors(t) == []
    ensures Param(t, "LAYER").Some? && Param(t, "FORMAT").Some? && FormatExtension(Param(t, "FORMAT").value).Some?
    ensures Param(t, "TILEMATRIXSET").Some? && Param(t, "TILEMATRIX").Some?
    ensures Param(t, "TILEROW").Some? && Param(t, "TILECOL").Some?
  {
    GetTileIsNotDocument(RequestOf(t).value);
    assert LayerErrors(t) == [];
    assert TileErrors(t) == [];
  }

  /** A GetTile request is neither of the two requests answered by a static document. */
  lemma GetTileIsNotDocument(v: string)
    requires EqIgnoreCase(v, "GetTile")
    ensures !EqIgnoreCase(v, "GetCapabilities") && !EqIgnoreCase(v, "GetTileService")
  {
    assert |Lower(v)| == 7;
  }

  /** The FORMAT, TILEMATRIXSET, TILEMATRIX, TILEROW and TILECOL checks of a GetTile request. */
  method CheckTileParams(t: Table, errs: ErrorArray)
      returns (format: Option<string>, tms: Option<string>, matrix: Option<string>, row: Option<string>, col: Option<string>)
    requires IsGetTile(t)
    requires errs.Valid() && errs.data.Length == 10 && errs.Contents() == CommonErrors(t) && errs.count <= 4
    modifies errs, errs.data
    ensures errs.Valid() && errs.Contents() == KvpErrors(t)
    ensures format == (if Param(t, "FORMAT").Some? then FormatExtension(Param(t, "FORMAT").value) else None)
    ensures tms == Param(t, "TILEMATRIXSET") && matrix == Param(t, "TILEMATRIX")
    ensures row == Param(t, "TILEROW") && col == Param(t, "TILECOL")
  {
    format := None;
    var param := GetParam(t, "FORMAT");
    if param.Some? {
      format := FormatExtension(param.value);
      if format.None? {
        errs.Push(InvalidFormat);
      }
    } else {
      errs.Push(Missing("FORMAT"));
    }
    ghost var c0 := CommonErrors(t) + FormatErrors(t);
    assert errs.Contents() == c0;
    tms := RequireParam(t, "TILEMATRIXSET", errs);
    ghost var c1 := c0 + RequiredErrors(t, "TILEMATRIXSET");
    assert errs.Contents() == c1;
    matrix := RequireParam(t, "TILEMATRIX", errs);
    ghost var c2 := c1 + RequiredErrors(t, "TILEMATRIX");
    assert errs.Contents() == c2;
    row := RequireParam(t, "TILEROW", errs);
    ghost var c3 := c2 + RequiredErrors(t, "TILEROW");
    assert errs.Contents() == c3;
    col := RequireParam(t, "TILECOL", errs);
    assert errs.Contents() == c3 + RequiredErrors(t, "TILECOL");
    Regroup(CommonErrors(t), FormatErrors(t), RequiredErrors(t, "TILEMATRIXSET"), RequiredErrors(t, "TILEMATRIX"),
      RequiredErrors(t, "TILEROW"), RequiredErrors(t, "TILECOL"));
  }

  /** A regrouping step for the solver; it states nothing about the module. */
  lemma Regroup(a: seq<WmtsError>, b: seq<WmtsError>, c: seq<WmtsError>, d: seq<WmtsError>, e: seq<WmtsError>, f: seq<WmtsError>)
    ensures a + (b + c + d + e + f) == a + b + c + d + e + f
  {
  }

  /** A GetTile parameter that must be present: records MissingParameterValue otherwise. */
  method RequireParam(t: Table, name: string, errs: ErrorArray) returns (v: Option<string>)
    requires errs.Valid() && errs.count < errs.data.Length
    modifies errs, errs.data
    ensures v == Param(t, name)
    ensures errs.Valid() && errs.Contents() == old(errs.Contents()) + RequiredErrors(t, name)
  {
    v := GetParam(t, name);
    if v.None? {
      errs.Push(Missing(name));
    }
  }
}
