/**
 * The module's error records and the OWS 1.1 `ExceptionReport` document that
 * `wmts_return_all_errors` writes for them (OGC 06-121r3, clause 8), together with a
 * reader for that document, and the fixed-capacity error array the hooks fill.
 */
module Errors {
  import opened Wrappers
  import opened Strings

  /** `wmts_error`, as `wmts_make_error` builds it: an HTTP status and the three report fields. */
  datatype WmtsError = MakeError(status: int, exceptionCode: string, locator: string, exceptionText: string)

  /** What a reader of the report sees of an error: the status is not part of the document. */
  datatype Exception = Exception(code: string, locator: string, text: string)

  function Shown(e: WmtsError): Exception {
    Exception(e.exceptionCode, e.locator, e.exceptionText)
  }

  function ShownAll(es: seq<WmtsError>): (r: seq<Exception>)
    ensures |r| == |es|
    ensures forall i :: 0 <= i < |es| ==> r[i] == Shown(es[i])
  {
    if es == [] then []
    else
      var r := [Shown(es[0])] + ShownAll(es[1..]);
      assert forall i :: 1 <= i < |es| ==> r[i] == Shown(es[1..][i - 1]);
      r
  }

  // ---- errors shared by the hooks ----

  /** The two date shapes the TIME message names. */
  const TimeShapes: string := "YYYY-MM-DD or YYYY-MM-DDThh:mm:ssZ"
  const InvalidTime: WmtsError :=
    MakeError(400, "InvalidParameterValue", "TIME", "Invalid time format, must be " + TimeShapes)
  const InvalidFormat: WmtsError := MakeError(400, "InvalidParameterValue", "FORMAT", "FORMAT is invalid for LAYER")
  const InvalidTileMatrixSet: WmtsError :=
    MakeError(400, "InvalidParameterValue", "TILEMATRIXSET", "TILEMATRIXSET is invalid for LAYER")

  /** The errors of `es` that point at parameter `locator`, in order. */
  function WithLocator(es: seq<WmtsError>, locator: string): (r: seq<WmtsError>)
    ensures |r| <= |es|
  {
    if es == [] then []
    else if es[0].locator == locator then [es[0]] + WithLocator(es[1..], locator)
    else WithLocator(es[1..], locator)
  }

  /** `WithLocator` keeps exactly the errors of `es` that name `locator`. */
  lemma {:induction false} WithLocatorMembers(es: seq<WmtsError>, locator: string)
    ensures forall e :: e in WithLocator(es, locator) <==> e in es && e.locator == locator
  {
    if es != [] {
      WithLocatorMembers(es[1..], locator);
      assert forall e :: e in es <==> e == es[0] || e in es[1..];
    }
  }

  lemma {:induction false} WithLocatorConcat(a: seq<WmtsError>, b: seq<WmtsError>, locator: string)
    ensures WithLocator(a + b, locator) == WithLocator(a, locator) + WithLocator(b, locator)
    decreases |a|
  {
    if a == [] {
      assert a + b == b;
    } else {
      assert (a + b)[0] == a[0];
      assert (a + b)[1..] == a[1..] + b;
      WithLocatorConcat(a[1..], b, locator);
    }
  }

  // ---- the document ----

  const Preamble: string :=
    "<?xml version=\"1.0\" encoding=\"UTF-8\"?>\n"
    + "<ExceptionReport xmlns=\"http://www.opengis.net/ows/1.1\" xmlns:xsi=\"http://www.w3.org/2001/XMLSchema-instance\" xsi:schemaLocation=\"http://schemas.opengis.net/ows/1.1.0/owsExceptionReport.xsd\" version=\"1.1.0\" xml:lang=\"en\">"
  const Postamble: string := "\n</ExceptionReport>"
  const PreException: string := "\n<Exception exceptionCode=\""
  const PreLocator: string := "\" locator=\""
  const PostLocator: string := "\">"
  const PreText: string := "\n<ExceptionText>"
  const PostText: string := "</ExceptionText>"
  const PostException: string := "</Exception>"

  /** One `<Exception>` element, as the loop body of `wmts_return_all_errors` writes it. */
  function ExceptionXml(e: WmtsError): string {
    PreException + e.exceptionCode + PreLocator + e.locator + PostLocator
    + PreText + e.exceptionText + PostText + PostException
  }

  function ExceptionsXml(es: seq<WmtsError>): string {
    if es == [] then [] else ExceptionXml(es[0]) + ExceptionsXml(es[1..])
  }

  /** The whole response body for an error array. */
  function ReportXml(es: seq<WmtsError>): string {
    Preamble + ExceptionsXml(es) + Postamble
  }

  /** The status `wmts_return_all_errors` leaves in `r->status`: that of the last error. */
  function LastStatus(current: int, es: seq<WmtsError>): int {
    if es == [] then current else es[|es| - 1].status
  }

  lemma {:induction false} ExceptionsXmlSnoc(es: seq<WmtsError>, e: WmtsError)
    ensures ExceptionsXml(es + [e]) == ExceptionsXml(es) + ExceptionXml(e)
  {
    if es == [] {
      assert es + [e] == [e];
    } else {
      assert (es + [e])[0] == es[0];
      assert (es + [e])[1..] == es[1..] + [e];
      ExceptionsXmlSnoc(es[1..], e);
    }
  }

  // ---- reading the document back ----

  predicate StartsWith(s: string, p: string) {
    |p| <= |s| && s[..|p|] == p
  }

  /**
   * Reads one `<Exception>` element at the start of `s`: the exception code and the
   * locator end at the next '"', the text at the next '<'.
   */
  function ParseException(s: string): (r: Option<(Exception, string)>)
    ensures r.Some? ==> |r.value.1| < |s|
  {
    if !StartsWith(s, PreException) then None
    else
      var (code, r1) := SplitAtChar(s[|PreException|..], '"');
      if !StartsWith(r1, PreLocator) then None
      else
        var (locator, r2) := SplitAtChar(r1[|PreLocator|..], '"');
        if !StartsWith(r2, PostLocator + PreText) then None
        else
          var (text, r3) := SplitAtChar(r2[|PostLocator + PreText|..], '<');
          if !StartsWith(r3, PostText + PostException) then None
          else Some((Exception(code, locator, text), r3[|PostText + PostException|..]))
  }

  function ParseExceptions(s: string): Option<seq<Exception>>
    decreases |s|
  {
    if s == [] then Some([])
    else
      match ParseException(s)
      case None => None
      case Some((e, rest)) =>
        match ParseExceptions(rest)
        case None => None
        case Some(es) => Some([e] + es)
  }

  /** The exceptions of a report document, in document order. */
  function ParseReport(body: string): Option<seq<Exception>> {
    if |Preamble| + |Postamble| <= |body| && StartsWith(body, Preamble)
       && body[|body| - |Postamble|..] == Postamble
    then ParseExceptions(body[|Preamble|..|body| - |Postamble|])
    else None
  }

  /**
   * An error the document can carry unambiguously: no '"' in the attribute values and no
   * '<' in the text. Every error the module makes is of this kind.
   */
  predicate WellFormed(e: WmtsError) {
    '"' !in e.exceptionCode && '"' !in e.locator && '<' !in e.exceptionText
  }

  predicate AllWellFormed(es: seq<WmtsError>) {
    forall i :: 0 <= i < |es| ==> WellFormed(es[i])
  }

  lemma DropPrefix(p: string, x: string)
    ensures StartsWith(p + x, p) && (p + x)[|p|..] == x
  {
    assert (p + x)[..|p|] == p;
  }

  /**
   * The nine parts of an `<Exception>` element and what follows it, grouped from the right;
   * a regrouping step for the solver, not a property of the module.
   */
  lemma Nest(a: string, b: string, c: string, d: string, e: string, f: string, g: string, h: string, i: string, rest: string)
    ensures a + b + c + d + e + f + g + h + i + rest == a + (b + (c + (d + ((e + f) + (g + ((h + i) + rest))))))
  {
  }

  lemma ParseExceptionXml(e: WmtsError, rest: string)
    requires WellFormed(e)
    ensures ParseException(ExceptionXml(e) + rest) == Some((Shown(e), rest))
  {
    var closing := PostText + PostException;
    var opening := PostLocator + PreText;
    var tail3 := closing + rest;
    var tail2 := opening + (e.exceptionText + tail3);
    var tail1 := PreLocator + (e.locator + tail2);
    Nest(PreException, e.exceptionCode, PreLocator, e.locator, PostLocator, PreText, e.exceptionText, PostText,
      PostException, rest);
    DropPrefix(PreException, e.exceptionCode + tail1);
    SplitAtCharUnique(e.exceptionCode, tail1, '"');
    DropPrefix(PreLocator, e.locator + tail2);
    SplitAtCharUnique(e.locator, tail2, '"');
    DropPrefix(opening, e.exceptionText + tail3);
    SplitAtCharUnique(e.exceptionText, tail3, '<');
    DropPrefix(closing, rest);
  }

  lemma {:induction false} ParseExceptionsXml(es: seq<WmtsError>)
    requires AllWellFormed(es)
    ensures ParseExceptions(ExceptionsXml(es)) == Some(ShownAll(es))
  {
    if es != [] {
      var rest := ExceptionsXml(es[1..]);
      ParseExceptionXml(es[0], rest);
      assert AllWellFormed(es[1..]) by {
        forall i | 0 <= i < |es[1..]| ensures WellFormed(es[1..][i]) {
          assert es[1..][i] == es[i + 1];
        }
      }
      ParseExceptionsXml(es[1..]);
    }
  }

  /**
   * The report holds exactly one `<Exception>` per error, in array order, each with the
   * error's exception code, locator and text.
   */
  lemma ReportRoundTrip(es: seq<WmtsError>)
    requires AllWellFormed(es)
    ensures ParseReport(ReportXml(es)) == Some(ShownAll(es))
  {
    var body := ReportXml(es);
    var inner := ExceptionsXml(es);
    assert body[..|Preamble|] == Preamble;
    assert body[|body| - |Postamble|..] == Postamble;
    assert body[|Preamble|..|body| - |Postamble|] == inner;
    ParseExceptionsXml(es);
  }

  // ---- the fixed-size error array ----

  /**
   * `wmts_error wmts_errors[N]` with its `errors` counter: the errors recorded so far
   * are the first `count` slots.
   */
  class ErrorArray {
    const data: array<WmtsError>
    var count: nat

    ghost predicate Valid()
      reads this
    {
      count <= data.Length
    }

    function Contents(): (es: seq<WmtsError>)
      reads this, data
      requires Valid()
      ensures |es| == count
    {
      data[..count]
    }

    constructor(capacity: nat)
      ensures Valid() && fresh(data)
      ensures data.Length == capacity && Contents() == []
    {
      data := new WmtsError[capacity](_ => MakeError(0, "", "", ""));
      count := 0;
    }

    /** `wmts_errors[errors++] = e`; the array must have room for it. */
    method Push(e: WmtsError)
      requires Valid() && count < data.Length
      modifies this, data
      ensures Valid() && Contents() == old(Contents()) + [e]
    {
      data[count] := e;
      count := count + 1;
    }

    /**
     * `wmts_errors[errors++] = e` where the array may be full: `overflow` when the write
     * would land past its end, which is undefined, and then nothing is recorded.
     */
    method Record(e: WmtsError) returns (overflow: bool)
      requires Valid()
      modifies this, data
      ensures Valid() && overflow == (old(count) == data.Length)
      ensures Contents() == if overflow then old(Contents()) else old(Contents()) + [e]
    {
      if count == data.Length {
        return true;
      }
      Push(e);
      overflow := false;
    }
  }
}
