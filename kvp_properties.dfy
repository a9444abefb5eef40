/**
 * What handleKvP promises, stated over the whole error array and the outcome: which
 * errors name which parameter, when a GetTile request is redirected and where to, and
 * that the report it writes carries its errors back out.
 */
module KvpProperties {
  import opened Wrappers
  import opened Strings
  import opened Tables
  import opened Errors
  import opened Config
  import opened Requests
  import opened Kvp

  /** A list of at most one error keeps it under its own locator and drops it under any other. */
  lemma FilterSingle(es: seq<WmtsError>, locator: string)
    requires |es| <= 1
    ensures WithLocator(es, locator) == if es != [] && es[0].locator == locator then es else []
  {
    if es != [] {
      assert es[1..] == [];
    }
  }

  function GetTileErrors(t: Table): seq<WmtsError> {
    if IsGetTile(t) then TileErrors(t) else []
  }

  lemma {:induction false} FilterTileErrors(t: Table, locator: string)
    ensures WithLocator(TileErrors(t), locator)
         == WithLocator(FormatErrors(t), locator) + WithLocator(RequiredErrors(t, "TILEMATRIXSET"), locator)
          + WithLocator(RequiredErrors(t, "TILEMATRIX"), locator) + WithLocator(RequiredErrors(t, "TILEROW"), locator)
          + WithLocator(RequiredErrors(t, "TILECOL"), locator)
  {
    var f, s, m, r, c := FormatErrors(t), RequiredErrors(t, "TILEMATRIXSET"), RequiredErrors(t, "TILEMATRIX"),
      RequiredErrors(t, "TILEROW"), RequiredErrors(t, "TILECOL");
    WithLocatorConcat(f + s + m + r, c, locator);
    WithLocatorConcat(f + s + m, r, locator);
    WithLocatorConcat(f + s, m, locator);
    WithLocatorConcat(f, s, locator);
  }

  lemma {:induction false} FilterKvpErrors(t: Table, locator: string)
    ensures WithLocator(KvpErrors(t), locator)
         == WithLocator(VersionErrors(t), locator) + WithLocator(TimeErrors(t), locator)
          + WithLocator(RequestErrors(t), locator) + WithLocator(LayerErrors(t), locator)
          + WithLocator(ServiceErrors(t), locator) + WithLocator(GetTileErrors(t), locator)
  {
    var v, ti, rq, l, s, g := VersionErrors(t), TimeErrors(t), RequestErrors(t), LayerErrors(t), ServiceErrors(t),
      GetTileErrors(t);
    assert KvpErrors(t) == v + ti + rq + l + s + g;
    WithLocatorConcat(v + ti + rq + l + s, g, locator);
    WithLocatorConcat(v + ti + rq + l, s, locator);
    WithLocatorConcat(v + ti + rq, l, locator);
    WithLocatorConcat(v + ti, rq, locator);
    WithLocatorConcat(v, ti, locator);
  }

  /** Under a locator none of the GetTile checks uses, the GetTile errors contribute nothing. */
  lemma TileErrorsElsewhere(t: Table, locator: string)
    requires locator != "FORMAT" && locator != "TILEMATRIXSET" && locator != "TILEMATRIX"
    requires locator != "TILEROW" && locator != "TILECOL"
    ensures WithLocator(GetTileErrors(t), locator) == []
  {
    if IsGetTile(t) {
      FilterTileErrors(t, locator);
      FilterSingle(FormatErrors(t), locator);
      FilterSingle(RequiredErrors(t, "TILEMATRIXSET"), locator);
      FilterSingle(RequiredErrors(t, "TILEMATRIX"), locator);
      FilterSingle(RequiredErrors(t, "TILEROW"), locator);
      FilterSingle(RequiredErrors(t, "TILECOL"), locator);
    }
  }

  /** Under a locator of one common check, the errors of the other four contribute nothing. */
  lemma FilterCommon(t: Table, locator: string)
    requires locator != "FORMAT" && locator != "TILEMATRIXSET" && locator != "TILEMATRIX"
    requires locator != "TILEROW" && locator != "TILECOL"
    ensures WithLocator(KvpErrors(t), locator)
         == WithLocator(VersionErrors(t), locator) + WithLocator(TimeErrors(t), locator)
          + WithLocator(RequestErrors(t), locator) + WithLocator(LayerErrors(t), locator)
          + WithLocator(ServiceErrors(t), locator)
  {
    FilterKvpErrors(t, locator);
    TileErrorsElsewhere(t, locator);
  }

  /** Each common check names only its own parameter. */
  lemma CommonLocated(t: Table, locator: string)
    ensures WithLocator(VersionErrors(t), locator) == if locator == "VERSION" then VersionErrors(t) else []
    ensures WithLocator(TimeErrors(t), locator) == if locator == "TIME" then TimeErrors(t) else []
    ensures WithLocator(RequestErrors(t), locator) == if locator == "REQUEST" then RequestErrors(t) else []
    ensures WithLocator(LayerErrors(t), locator) == if locator == "LAYER" then LayerErrors(t) else []
    ensures WithLocator(ServiceErrors(t), locator) == if locator == "SERVICE" then ServiceErrors(t) else []
  {
    FilterSingle(VersionErrors(t), locator);
    FilterSingle(TimeErrors(t), locator);
    FilterSingle(RequestErrors(t), locator);
    FilterSingle(LayerErrors(t), locator);
    FilterSingle(ServiceErrors(t), locator);
  }

  /**
   * VERSION: a missing or empty value gives exactly one MissingParameterValue error with
   * locator VERSION, a value other than 1.0.0 exactly one InvalidParameterValue, and
   * 1.0.0 none.
   */
  lemma VersionReported(t: Table)
    ensures var es := WithLocator(KvpErrors(t), "VERSION");
      (Param(t, "VERSION").None? ==> es == [Missing("VERSION")])
      && (Param(t, "VERSION").Some? && !EqIgnoreCase(Param(t, "VERSION").value, "1.0.0") ==> es == [InvalidVersion])
      && (es == [] <==> Param(t, "VERSION").Some? && EqIgnoreCase(Param(t, "VERSION").value, "1.0.0"))
  {
    FilterCommon(t, "VERSION");
    CommonLocated(t, "VERSION");
  }

  /**
   * REQUEST: missing gives one MissingParameterValue error, an unknown operation one
   * OperationNotSupported (HTTP 501), and a known operation none.
   */
  lemma RequestReported(t: Table)
    ensures var es := WithLocator(KvpErrors(t), "REQUEST");
      (Param(t, "REQUEST").None? ==> es == [Missing("REQUEST")])
      && (Param(t, "REQUEST").Some? && !KnownRequest(Param(t, "REQUEST").value) ==> es == [UnsupportedRequest])
      && (es == [] <==> RequestOf(t).Some?)
  {
    FilterCommon(t, "REQUEST");
    CommonLocated(t, "REQUEST");
  }

  /** LAYER is demanded by GetTile alone: only a GetTile request without it reports it missing. */
  lemma LayerReported(t: Table)
    ensures WithLocator(KvpErrors(t), "LAYER")
         == if IsGetTile(t) && Param(t, "LAYER").None? then [Missing("LAYER")] else []
  {
    FilterCommon(t, "LAYER");
    CommonLocated(t, "LAYER");
  }

  /**
   * SERVICE: missing or empty (under either key) gives one MissingParameterValue error, a
   * value other than WMTS one InvalidParameterValue, and WMTS none.
   */
  lemma ServiceReported(t: Table)
    ensures var es := WithLocator(KvpErrors(t), "SERVICE");
      var v := ServiceValue(t);
      ((v.None? || v.value == []) ==> es == [Missing("SERVICE")])
      && (v.Some? && v.value != [] && !EqIgnoreCase(v.value, "WMTS") ==> es == [InvalidService])
      && (es == [] <==> v.Some? && EqIgnoreCase(v.value, "WMTS"))
  {
    FilterCommon(t, "SERVICE");
    CommonLocated(t, "SERVICE");
  }

  /** The alias key is read only when SERVICE itself is absent: setting it otherwise changes nothing. */
  lemma ServiceAliasOnlyWhenAbsent(t: Table, alias: Option<string>)
    requires Get(t, "SERVICE").Some?
    ensures ServiceErrors(Set(t, ServiceAlias, alias)) == ServiceErrors(t)
  {
    GetSetOther(t, ServiceAlias, alias, "SERVICE");
  }

  /**
   * TIME is optional, and checked for its shape only: a present value that fits neither
   * date shape (nor is "default") gives exactly one InvalidParameterValue error.
   */
  lemma TimeReported(t: Table)
    ensures var es := WithLocator(KvpErrors(t), "TIME");
      es == if Param(t, "TIME").Some? && !TimeAccepted(Param(t, "TIME").value) then [InvalidTime] else []
  {
    FilterCommon(t, "TIME");
    CommonLocated(t, "TIME");
  }

  /**
   * handleKvP never declines: a request without a known REQUEST has an error to report,
   * and every known one is answered.
   */
  lemma KvpNeverDeclines(t: Table, base: string, notes: Table, hasDateRegexp: bool)
    ensures KvpStep(t, base, notes, hasDateRegexp).outcome != Declined
  {
    if !TimeNeedsMissingPattern(t, hasDateRegexp) && RequestOf(t).None? {
      assert RequestErrors(t) != [];
      assert KvpErrors(t)[|VersionErrors(t)| + |TimeErrors(t)|] == RequestErrors(t)[0];
    }
  }

  /**
   * A GetTile request is reported exactly when some check failed, and otherwise
   * redirected (and handled) with the date noted.
   */
  lemma GetTileAnswered(t: Table, base: string, notes: Table, hasDateRegexp: bool)
    requires IsGetTile(t) && !TimeNeedsMissingPattern(t, hasDateRegexp)
    ensures var s := KvpStep(t, base, notes, hasDateRegexp);
      (s.outcome.Report? <==> KvpErrors(t) != [])
      && (s.outcome.Report? ==> s.outcome.errors == KvpErrors(t) && s.notes == notes)
      && (!s.outcome.Report? ==> s.outcome.Redirect? && s.outcome.handled)
  {
  }

  /**
   * The REST path of a GetTile request that passed every check: the base URI, then
   * LAYER, STYLE (or "default"), TILEMATRIXSET, TILEMATRIX, TILEROW, TILECOL and the
   * extension of FORMAT; the TIME value (or "default") is noted for the next pass and
   * the other notes are kept.
   */
  lemma GetTileRedirect(t: Table, base: string, notes: Table, hasDateRegexp: bool, probe: string)
    requires IsGetTile(t) && !TimeNeedsMissingPattern(t, hasDateRegexp) && KvpErrors(t) == []
    ensures Param(t, "LAYER").Some? && Param(t, "FORMAT").Some? && FormatExtension(Param(t, "FORMAT").value).Some?
    ensures Param(t, "TILEMATRIXSET").Some? && Param(t, "TILEMATRIX").Some?
    ensures Param(t, "TILEROW").Some? && Param(t, "TILECOL").Some?
    ensures var s := KvpStep(t, base, notes, hasDateRegexp);
      s.outcome == Redirect(TilePath(base, Param(t, "LAYER").value, OrDefault(Param(t, "STYLE")),
        Param(t, "TILEMATRIXSET").value, Param(t, "TILEMATRIX").value, Param(t, "TILEROW").value,
        Param(t, "TILECOL").value, FormatExtension(Param(t, "FORMAT").value).value), true)
      && Get(s.notes, DateNote) == Some(OrDefault(Param(t, "TIME")))
      && (!EqIgnoreCase(probe, DateNote) ==> Get(s.notes, probe) == Get(notes, probe))
  {
    NoTileErrors(t);
    GetSetSame(notes, DateNote, Some(OrDefault(Param(t, "TIME"))), DateNote);
    if !EqIgnoreCase(probe, DateNote) {
      GetSetOther(notes, DateNote, Some(OrDefault(Param(t, "TIME"))), probe);
    }
  }

  /** The FORMAT values handleKvP accepts lead to extensions the REST check accepts for that type. */
  lemma FormatExtensionAccepted(f: string)
    requires FormatExtension(f).Some?
    ensures CheckValidExtension(Some(f), FormatExtension(f).value)
  {
  }

  /** At most nine errors: one per common check except that REQUEST and LAYER exclude each other. */
  lemma KvpErrorsFit(t: Table)
    ensures |KvpErrors(t)| <= 9
  {
    CommonErrorsBound(t);
  }

  lemma MissingWellFormed(name: string)
    requires '"' !in name && '<' !in name
    ensures WellFormed(Missing(name))
  {
    CodesWellFormed();
  }

  lemma AllWellFormedConcat(a: seq<WmtsError>, b: seq<WmtsError>)
    requires AllWellFormed(a) && AllWellFormed(b)
    ensures AllWellFormed(a + b)
  {
    forall i | 0 <= i < |a + b| ensures WellFormed((a + b)[i]) {
      if i >= |a| {
        assert (a + b)[i] == b[i - |a|];
      }
    }
  }

  lemma CodesWellFormed()
    ensures '"' !in "InvalidParameterValue" && '"' !in "MissingParameterValue" && '"' !in "OperationNotSupported"
  {
  }

  lemma InvalidVersionWellFormed()
    ensures WellFormed(InvalidVersion)
  {
    CodesWellFormed();
  }

  lemma UnsupportedRequestWellFormed()
    ensures WellFormed(UnsupportedRequest)
  {
    CodesWellFormed();
  }

  lemma InvalidServiceWellFormed()
    ensures WellFormed(InvalidService)
  {
    CodesWellFormed();
  }

  lemma InvalidTimeWellFormed()
    ensures WellFormed(InvalidTime)
  {
    CodesWellFormed();
    assert '<' !in "Invalid time format, must be ";
    assert '<' !in TimeShapes;
    assert InvalidTime.exceptionText == "Invalid time format, must be " + TimeShapes;
  }

  lemma InvalidFormatWellFormed()
    ensures WellFormed(InvalidFormat)
  {
    CodesWellFormed();
  }

  lemma ConstantsWellFormed()
    ensures WellFormed(InvalidVersion) && WellFormed(UnsupportedRequest) && WellFormed(InvalidService)
    ensures WellFormed(InvalidTime) && WellFormed(InvalidFormat)
  {
    InvalidVersionWellFormed();
    UnsupportedRequestWellFormed();
    InvalidServiceWellFormed();
    InvalidTimeWellFormed();
    InvalidFormatWellFormed();
  }

  lemma CommonWellFormed(t: Table)
    ensures AllWellFormed(CommonErrors(t))
  {
    ConstantsWellFormed();
    MissingWellFormed("VERSION");
    MissingWellFormed("REQUEST");
    MissingWellFormed("LAYER");
    MissingWellFormed("SERVICE");
    var v, ti, rq, l, s := VersionErrors(t), TimeErrors(t), RequestErrors(t), LayerErrors(t), ServiceErrors(t);
    assert AllWellFormed(v) && AllWellFormed(ti) && AllWellFormed(rq) && AllWellFormed(l) && AllWellFormed(s);
    AllWellFormedConcat(v, ti);
    AllWellFormedConcat(v + ti, rq);
    AllWellFormedConcat(v + ti + rq, l);
    AllWellFormedConcat(v + ti + rq + l, s);
  }

  lemma TileWellFormed(t: Table)
    ensures AllWellFormed(TileErrors(t))
  {
    ConstantsWellFormed();
    MissingWellFormed("FORMAT");
    MissingWellFormed("TILEMATRIXSET");
    MissingWellFormed("TILEMATRIX");
    MissingWellFormed("TILEROW");
    MissingWellFormed("TILECOL");
    var f, s, m, r, c := FormatErrors(t), RequiredErrors(t, "TILEMATRIXSET"), RequiredErrors(t, "TILEMATRIX"),
      RequiredErrors(t, "TILEROW"), RequiredErrors(t, "TILECOL");
    assert AllWellFormed(f) && AllWellFormed(s) && AllWellFormed(m) && AllWellFormed(r) && AllWellFormed(c);
    AllWellFormedConcat(f, s);
    AllWellFormedConcat(f + s, m);
    AllWellFormedConcat(f + s + m, r);
    AllWellFormedConcat(f + s + m + r, c);
  }

  /**
   * The report handleKvP writes reads back as exactly its errors, in the order it
   * recorded them.
   */
  lemma KvpReportRoundTrip(t: Table)
    ensures ParseReport(ReportXml(KvpErrors(t))) == Some(ShownAll(KvpErrors(t)))
  {
    CommonWellFormed(t);
    TileWellFormed(t);
    AllWellFormedConcat(CommonErrors(t), if IsGetTile(t) then TileErrors(t) else []);
    ReportRoundTrip(KvpErrors(t));
  }
}
