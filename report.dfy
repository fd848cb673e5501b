/**
 * The report record and its wire envelope (src/report.rs). A `NELReport`
 * is an object whose fields the setters update in place; the envelope
 * `ReportHeader`/`ReportBody` is a value built from it. The monotonic
 * clock is an integer number of milliseconds handed in by the caller.
 */
module Report {
  import opened Optional
  import opened NelError

  /** A header map: each name with all of its values. */
  type Headers = map<string, seq<string>>

  /** The type every envelope carries. */
  const NetworkError := "network-error"

  /**
   * `opt_to_string`: an absent value is the empty string, a present one
   * its text; `show` stands for the value's `ToString`.
   */
  function OptToString<T>(input: Option<T>, show: T -> string): (s: string)
    ensures input.None? ==> s == ""
    ensures input.Some? ==> s == show(input.value)
  {
    match input
    case None => ""
    case Some(v) => show(v)
  }

  /**
   * Milliseconds from `from` to `to`, or 0 when `to` comes first
   * (`checked_duration_since(..).unwrap_or(0)`).
   */
  function ElapsedMillis(from: int, to: int): (ms: nat)
    ensures to >= from ==> from + ms == to
    ensures to < from ==> ms == 0
  {
    if to >= from then to - from else 0
  }

  /** Elapsed time never decreases as the clock moves forward. */
  lemma ElapsedMonotone(from: int, t1: int, t2: int)
    requires t1 <= t2
    ensures ElapsedMillis(from, t1) <= ElapsedMillis(from, t2)
    ensures ElapsedMillis(from, t2) <= ElapsedMillis(from, t1) + (t2 - t1)
  {
  }

  /** `ReportBody`: the fields copied from the report. */
  datatype ReportBody = ReportBody(
    samplingFraction: real, serverIp: string, protocol: string, httpMethod: string,
    requestHeaders: Headers, responseHeaders: Headers, statusCode: nat,
    phase: string, errorType: string)

  /** `ReportHeader`: the envelope sent to the collector. */
  datatype ReportHeader = ReportHeader(age: nat, reportType: string, url: string, body: ReportBody)

  /**
   * An envelope as the collector expects it: of type "network-error",
   * sampled at 1.0, and either carrying no error yet or a phase that is
   * the phase of its own error type.
   */
  predicate WellFormedEnvelope(h: ReportHeader) {
    && h.reportType == NetworkError
    && h.body.samplingFraction == 1.0
    && ((h.body.phase == "" && h.body.errorType == "")
        || h.body.phase == Phase(SplitType(h.body.errorType)))
  }

  /** `NELReport`: everything known about one failed request. */
  class NELReport {
    var captured: int
    var url: string
    var serverIp: string
    var protocol: string
    var httpMethod: string
    var requestHeaders: Headers
    var responseHeaders: Headers
    var statusCode: nat
    var phase: string
    var errorType: string

    /** The phase and the error type were set together, or neither was set. */
    predicate Consistent()
      reads this
    {
      (phase == "" && errorType == "") || phase == Phase(SplitType(errorType))
    }

    /** `NELReport::new(url)`, captured at `now`. */
    constructor (url: string, now: int)
      ensures this.url == url && captured == now
      ensures serverIp == "" && protocol == "" && httpMethod == ""
      ensures requestHeaders == map[] && responseHeaders == map[] && statusCode == 0
      ensures phase == "" && errorType == ""
      ensures Consistent()
    {
      captured := now;
      this.url := url;
      serverIp := "";
      protocol := "";
      httpMethod := "";
      requestHeaders := map[];
      responseHeaders := map[];
      statusCode := 0;
      phase := "";
      errorType := "";
    }

    method SetServerIp<T>(val: Option<T>, show: T -> string)
      modifies this`serverIp
      ensures serverIp == OptToString(val, show)
      ensures old(Consistent()) ==> Consistent()
    {
      serverIp := OptToString(val, show);
    }

    method SetProtocol<T>(val: Option<T>, show: T -> string)
      modifies this`protocol
      ensures protocol == OptToString(val, show)
      ensures old(Consistent()) ==> Consistent()
    {
      protocol := OptToString(val, show);
    }

    method SetMethod<T>(val: Option<T>, show: T -> string)
      modifies this`httpMethod
      ensures httpMethod == OptToString(val, show)
      ensures old(Consistent()) ==> Consistent()
    {
      httpMethod := OptToString(val, show);
    }

    /**
     * `set_error`: records the error's phase and its type string. For any
     * error whose class has no dot (every error the classifiers produce)
     * the recorded phase is the phase of the recorded type.
     */
    method SetError(err: Error)
      modifies this`phase, this`errorType
      ensures phase == Phase(err) && errorType == ToString(err)
      ensures '.' !in err.errorClass ==> Consistent()
    {
      phase := Phase(err);
      errorType := ToString(err);
      if '.' !in err.errorClass {
        PhaseAgreesWithType(err);
      }
    }

    /** `ReportHeader::from(&report)`, with the clock reading `now`. */
    function ToHeader(now: int): (h: ReportHeader)
      reads this
      ensures h.reportType == NetworkError && h.url == url
      ensures h.age == ElapsedMillis(captured, now)
      ensures h.body == ReportBody(1.0, serverIp, protocol, httpMethod, requestHeaders,
                                   responseHeaders, statusCode, phase, errorType)
      ensures Consistent() ==> WellFormedEnvelope(h)
    {
      ReportHeader(ElapsedMillis(captured, now), NetworkError, url,
                   ReportBody(1.0, serverIp, protocol, httpMethod, requestHeaders,
                              responseHeaders, statusCode, phase, errorType))
    }
  }

  /** `FailedReport`: a report with the time of its last failed send. */
  datatype FailedReport = FailedReport(lastTry: int, original: NELReport)
}
