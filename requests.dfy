/**
 * The parts of Apache's `request_rec` that the hooks read and write, what a hook
 * decides (its outcome), and `wmts_return_all_errors`, which writes an error report
 * into the response.
 */
module Requests {
  import opened Wrappers
  import opened Tables
  import opened Errors
  import opened Config

  /** The date a request carries past the date-stripping redirect. */
  const DateNote: string := "mod_wmts_wrapper_date"
  /** Set in `r->notes` by a date-service lookup elsewhere in the server. */
  const FilenameNote: string := "mod_wmts_wrapper_filename"
  /** Set by mod_onearth when it could not serve a tile. */
  const FailedNote: string := "mod_onearth_failed"

  /** What a hook can see of `r->prev`, the request this one was redirected from. */
  datatype Attempt = Attempt(notes: Table, args: Option<string>)

  /**
   * What a hook does, with the value it returns to Apache:
   * - `Declined`: nothing, returns DECLINED;
   * - `Redirect`: `ap_internal_redirect` to `path`, then returns OK when `handled`
   *   and DECLINED otherwise;
   * - `Report`: `wmts_return_all_errors` with `errors`, returns OK;
   * - `Overlay`: puts the amended back-end configuration in `r->request_config`,
   *   returns DECLINED;
   * - `Fail`: returns the date service's failing `status`;
   * - `Fault`: the C code's behaviour is undefined (an out-of-bounds read or write or a
   *   NULL dereference).
   */
  datatype Outcome =
    | Declined
    | Redirect(path: string, handled: bool)
    | Report(errors: seq<WmtsError>)
    | Overlay(config: Backend)
    | Fail(status: int)
    | Fault

  /** A hook's outcome together with `r->notes` as the hook leaves it. */
  datatype Step = Step(outcome: Outcome, notes: Table)

  /** A request: what the hooks read, and the fields they write. */
  class Request {
    const uri: string
    const args: Option<string>
    const prev: Option<Attempt>
    /** Whether `apr_stat` finds `r->filename`. */
    const fileExists: bool
    var notes: Table
    var status: int
    var contentType: Option<string>
    var body: string
    var requestConfig: Option<Backend>

    constructor(uri: string, args: Option<string>, prev: Option<Attempt>, fileExists: bool, notes: Table)
      ensures this.uri == uri && this.args == args && this.prev == prev
      ensures this.fileExists == fileExists && this.notes == notes
      ensures status == 200 && contentType.None? && body == [] && requestConfig.None?
    {
      this.uri := uri;
      this.args := args;
      this.prev := prev;
      this.fileExists := fileExists;
      this.notes := notes;
      status := 200;
      contentType := None;
      body := [];
      requestConfig := None;
    }
  }

  function BodyAfter(body: string, o: Outcome): string {
    if o.Report? then body + ReportXml(o.errors) else body
  }

  function StatusAfter(status: int, o: Outcome): int {
    if o.Report? then LastStatus(status, o.errors) else status
  }

  function ContentTypeAfter(contentType: Option<string>, o: Outcome): Option<string> {
    if o.Report? then Some("text/xml") else contentType
  }

  function ConfigAfter(config: Option<Backend>, o: Outcome): Option<Backend> {
    if o.Overlay? then Some(o.config) else config
  }

  /** The request's writable fields are as a hook that took step `s` leaves them. */
  twostate predicate Applied(r: Request, s: Step)
    reads r
  {
    r.notes == s.notes
    && r.body == BodyAfter(old(r.body), s.outcome)
    && r.status == StatusAfter(old(r.status), s.outcome)
    && r.contentType == ContentTypeAfter(old(r.contentType), s.outcome)
    && r.requestConfig == ConfigAfter(old(r.requestConfig), s.outcome)
  }

  /**
   * `wmts_return_all_errors`: sets the content type to text/xml and writes the preamble,
   * one `<Exception>` element per recorded error, and the postamble; each error
   * overwrites `r->status`, so the last one's status remains.
   */
  method ReturnAllErrors(r: Request, errs: ErrorArray)
    requires errs.Valid()
    modifies r
    ensures r.contentType == Some("text/xml")
    ensures r.body == old(r.body) + ReportXml(errs.Contents())
    ensures r.status == LastStatus(old(r.status), errs.Contents())
    ensures r.notes == old(r.notes) && r.requestConfig == old(r.requestConfig)
  {
    ghost var before := r.body;
    r.contentType := Some("text/xml");
    r.body := r.body + Preamble;
    WriteExceptions(r, errs);
    r.body := r.body + Postamble;
    Regroup(before, Preamble, ExceptionsXml(errs.Contents()), Postamble);
  }

  // Regrouping steps for the solver; they state nothing about the module.
  lemma Regroup(a: string, b: string, c: string, d: string)
    ensures a + b + c + d == a + (b + c + d)
  {
  }

  lemma Append3(a: string, b: string, c: string)
    ensures a + b + c == a + (b + c)
  {
  }

  /** One pass of the loop of `wmts_return_all_errors`. */
  method WriteException(r: Request, e: WmtsError)
    modifies r
    ensures r.body == old(r.body) + ExceptionXml(e) && r.status == e.status
    ensures r.contentType == old(r.contentType)
    ensures r.notes == old(r.notes) && r.requestConfig == old(r.requestConfig)
  {
    r.body := r.body + ExceptionXml(e);
    r.status := e.status;
  }

  /** The loop of `wmts_return_all_errors`. */
  method WriteExceptions(r: Request, errs: ErrorArray)
    requires errs.Valid()
    modifies r
    ensures r.body == old(r.body) + ExceptionsXml(errs.Contents())
    ensures r.status == LastStatus(old(r.status), errs.Contents())
    ensures r.contentType == old(r.contentType)
    ensures r.notes == old(r.notes) && r.requestConfig == old(r.requestConfig)
  {
    ghost var es := errs.Contents();
    var i := 0;
    while i < errs.count
      invariant 0 <= i <= errs.count
      invariant r.body == old(r.body) + ExceptionsXml(es[..i])
      invariant r.status == LastStatus(old(r.status), es[..i])
      invariant r.contentType == old(r.contentType)
      invariant r.notes == old(r.notes) && r.requestConfig == old(r.requestConfig)
    {
      var e := errs.data[i];
      assert e == es[i];
      assert es[..i + 1] == es[..i] + [e];
      ExceptionsXmlSnoc(es[..i], e);
      Append3(old(r.body), ExceptionsXml(es[..i]), ExceptionXml(e));
      WriteException(r, e);
      i := i + 1;
    }
    assert es[..i] == es;
  }

  /** Slots in the error array of either hook (`wmts_error wmts_errors[5]`). */
  const Capacity: nat := 5

  /** Writes the report of the recorded errors. */
  method ReportAll(r: Request, errs: ErrorArray) returns (o: Outcome)
    requires errs.Valid()
    modifies r
    ensures o == Report(errs.Contents()) && Applied(r, Step(o, old(r.notes)))
  {
    ReturnAllErrors(r, errs);
    o := Report(errs.Contents());
  }

  /** Records one error and writes the report. */
  method ReportOne(r: Request, e: WmtsError) returns (o: Outcome)
    modifies r
    ensures o == Report([e]) && Applied(r, Step(o, old(r.notes)))
  {
    var errs := new ErrorArray(Capacity);
    errs.Push(e);
    o := ReportAll(r, errs);
  }
}
