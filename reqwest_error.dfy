/**
 * Classification of HTTP client errors (src/error/reqwest.rs). A reqwest
 * error and a hyper error each carry the chain of errors that `source()`
 * walks, nearest cause first; the model keeps what the classifier looks at
 * in each link: whether it is an I/O error, a hyper error or something
 * else, and its display text.
 */
module ReqwestError {
  import opened Strings
  import opened NelError

  /** One link of a `source()` chain. */
  datatype Cause =
    | IoCause(io: IoError)
    | HyperCause(hyper: HyperError)
    | OtherCause(display: string)

  /** A `hyper::Error`: its `is_*` flags, its display text and its source chain. */
  datatype HyperError = HyperError(
    isConnect: bool, isParse: bool, isUser: bool, isIncompleteMessage: bool,
    isBodyWriteAborted: bool, isTimeout: bool, isClosed: bool, isCanceled: bool,
    display: string, sources: seq<Cause>)

  /** A `reqwest::Error`: its display text and its source chain. */
  datatype Reqwest = Reqwest(display: string, sources: seq<Cause>)

  /** The display text of a link (`to_string()` on the `dyn Error`). */
  function Describe(c: Cause): string {
    match c
    case IoCause(io) => io.message
    case HyperCause(h) => h.display
    case OtherCause(d) => d
  }

  /** Position of the nearest I/O error in `chain`, or `|chain|` when it holds none. */
  function FirstIoIndex(chain: seq<Cause>): (k: nat)
    ensures k <= |chain|
    ensures forall j | 0 <= j < k :: !chain[j].IoCause?
    ensures k < |chain| ==> chain[k].IoCause?
  {
    if chain == [] then 0
    else if chain[0].IoCause? then 0
    else 1 + FirstIoIndex(chain[1..])
  }

  /** Position of the nearest hyper error in `chain`, or `|chain|` when it holds none. */
  function FirstHyperIndex(chain: seq<Cause>): (k: nat)
    ensures k <= |chain|
    ensures forall j | 0 <= j < k :: !chain[j].HyperCause?
    ensures k < |chain| ==> chain[k].HyperCause?
  {
    if chain == [] then 0
    else if chain[0].HyperCause? then 0
    else 1 + FirstHyperIndex(chain[1..])
  }

  /**
   * A connect error: the display text of its immediate source, matched
   * case-sensitively; `tcp.failed` when nothing matches or there is no source.
   */
  function FromConnectSource(sources: seq<Cause>): (r: Error)
    ensures r.errorClass in {"tls", "tcp"} && Phase(r) == "connection"
    ensures sources == [] ==> r == Error("tcp", "failed")
  {
    if sources == [] then New("tcp", "failed")
    else
      var s := Describe(sources[0]);
      if Contains(s, "Hostname mismatch") then New("tls", "cert.name_invalid")
      else if Contains(s, "certificate has expired") then New("tls", "cert.date_invalid")
      else if Contains(s, "self signed certificate in certificate chain") then
        New("tls", "cert.authority_invalid")
      else New("tcp", "failed")
  }

  /** The connect rules in their order: the first text found in the source's display decides. */
  lemma ConnectSourcePriority(sources: seq<Cause>)
    requires sources != []
    ensures var s := Describe(sources[0]); var r := FromConnectSource(sources);
      && (r == Error("tls", "cert.name_invalid") <==> Contains(s, "Hostname mismatch"))
      && (r == Error("tls", "cert.date_invalid") <==>
            !Contains(s, "Hostname mismatch") && Contains(s, "certificate has expired"))
      && (r == Error("tls", "cert.authority_invalid") <==>
            !Contains(s, "Hostname mismatch") && !Contains(s, "certificate has expired")
            && Contains(s, "self signed certificate in certificate chain"))
      && (r == Error("tcp", "failed") <==>
            !Contains(s, "Hostname mismatch") && !Contains(s, "certificate has expired")
            && !Contains(s, "self signed certificate in certificate chain"))
  {
  }

  /** Every error that `FromHyperFlags` can produce apart from the connect errors. */
  const FlagErrors: set<Error> := {
    Error("http", "response.invalid"), Error("http", "protocol.error"), Error("tcp", "closed"),
    Error("abandoned", ""), Error("tcp", "timed_out"), Error("tcp", "reset"), Error("tcp", "aborted")
  }

  /**
   * A hyper error with no I/O error in its chain, classified by its flags in
   * the order connect, parse, user, incomplete message, body write aborted,
   * timeout, closed, canceled.
   */
  function FromHyperFlags(err: HyperError): (r: Error)
    ensures err.isConnect ==> r == FromConnectSource(err.sources)
    ensures !err.isConnect ==> r in FlagErrors || r == Error("unknown", err.display)
    ensures r.errorClass == "http" ==> !err.isConnect && (err.isParse || err.isUser)
    ensures r == Error("abandoned", "") <==>
      !err.isConnect && !err.isParse && !err.isUser && !err.isIncompleteMessage
      && err.isBodyWriteAborted
    ensures r.errorClass == "unknown" <==>
      !err.isConnect && !err.isParse && !err.isUser && !err.isIncompleteMessage
      && !err.isBodyWriteAborted && !err.isTimeout && !err.isClosed && !err.isCanceled
  {
    if err.isConnect then FromConnectSource(err.sources)
    else if err.isParse then New("http", "response.invalid")
    else if err.isUser then New("http", "protocol.error")
    else if err.isIncompleteMessage then New("tcp", "closed")
    else if err.isBodyWriteAborted then New("abandoned", "")
    else if err.isTimeout then New("tcp", "timed_out")
    else if err.isClosed then New("tcp", "reset")
    else if err.isCanceled then New("tcp", "aborted")
    else New("unknown", err.display)
  }

  /** The flag chain: each flag decides when it is the first one set. */
  lemma HyperFlagPriority(err: HyperError)
    requires !err.isConnect
    ensures err.isParse ==> FromHyperFlags(err) == Error("http", "response.invalid")
    ensures (!err.isParse && err.isUser) ==> FromHyperFlags(err) == Error("http", "protocol.error")
    ensures (!err.isParse && !err.isUser && err.isIncompleteMessage) ==>
      FromHyperFlags(err) == Error("tcp", "closed")
    ensures (!err.isParse && !err.isUser && !err.isIncompleteMessage && err.isBodyWriteAborted) ==>
      FromHyperFlags(err) == Error("abandoned", "")
    ensures (!err.isParse && !err.isUser && !err.isIncompleteMessage && !err.isBodyWriteAborted
             && err.isTimeout) ==>
      FromHyperFlags(err) == Error("tcp", "timed_out")
    ensures (!err.isParse && !err.isUser && !err.isIncompleteMessage && !err.isBodyWriteAborted
             && !err.isTimeout && err.isClosed) ==>
      FromHyperFlags(err) == Error("tcp", "reset")
    ensures (!err.isParse && !err.isUser && !err.isIncompleteMessage && !err.isBodyWriteAborted
             && !err.isTimeout && !err.isClosed && err.isCanceled) ==>
      FromHyperFlags(err) == Error("tcp", "aborted")
    ensures (!err.isParse && !err.isUser && !err.isIncompleteMessage && !err.isBodyWriteAborted
             && !err.isTimeout && !err.isClosed && !err.isCanceled) ==>
      FromHyperFlags(err) == Error("unknown", err.display)
  {
  }

  /** `From<&hyper::Error>`: the nearest I/O error in the chain decides; otherwise the flags do. */
  function HyperToError(err: HyperError): Error {
    var k := FirstIoIndex(err.sources);
    if k < |err.sources| then FromIo(err.sources[k].io) else FromHyperFlags(err)
  }

  /** `From<&reqwest::Error>`: the nearest hyper error in the chain decides; otherwise "unknown". */
  function ReqwestToError(err: Reqwest): Error {
    var k := FirstHyperIndex(err.sources);
    if k < |err.sources| then HyperToError(err.sources[k].hyper) else New("unknown", err.display)
  }

  /** The walk of src/error/reqwest.rs:24-31 followed by the flag chain. */
  method FromHyper(err: HyperError) returns (r: Error)
    ensures r == HyperToError(err)
  {
    var i := 0;
    while i < |err.sources|
      invariant 0 <= i <= |err.sources|
      invariant forall j | 0 <= j < i :: !err.sources[j].IoCause?
    {
      if err.sources[i].IoCause? {
        return FromIo(err.sources[i].io);
      }
      i := i + 1;
    }
    r := FromHyperFlags(err);
  }

  /** The walk of src/error/reqwest.rs:6-15. */
  method FromReqwest(err: Reqwest) returns (r: Error)
    ensures r == ReqwestToError(err)
  {
    var i := 0;
    while i < |err.sources|
      invariant 0 <= i <= |err.sources|
      invariant forall j | 0 <= j < i :: !err.sources[j].HyperCause?
    {
      if err.sources[i].HyperCause? {
        r := FromHyper(err.sources[i].hyper);
        return;
      }
      i := i + 1;
    }
    r := New("unknown", err.display);
  }

  /** The nearest I/O error in a hyper error's chain decides, whatever its flags. */
  lemma NearestIoCauseDecides(err: HyperError, i: int)
    requires 0 <= i < |err.sources| && err.sources[i].IoCause?
    requires forall j | 0 <= j < i :: !err.sources[j].IoCause?
    ensures HyperToError(err) == FromIo(err.sources[i].io)
  {
  }

  /** Without an I/O error in the chain, the flags decide. */
  lemma NoIoCauseFlagsDecide(err: HyperError)
    requires forall j | 0 <= j < |err.sources| :: !err.sources[j].IoCause?
    ensures HyperToError(err) == FromHyperFlags(err)
  {
  }

  /** The nearest hyper error in a reqwest error's chain decides. */
  lemma NearestHyperCauseDecides(err: Reqwest, i: int)
    requires 0 <= i < |err.sources| && err.sources[i].HyperCause?
    requires forall j | 0 <= j < i :: !err.sources[j].HyperCause?
    ensures ReqwestToError(err) == HyperToError(err.sources[i].hyper)
  {
  }

  /** Without a hyper error in the chain, a reqwest error is "unknown". */
  lemma NoHyperCauseIsUnknown(err: Reqwest)
    requires forall j | 0 <= j < |err.sources| :: !err.sources[j].HyperCause?
    ensures ReqwestToError(err) == Error("unknown", err.display)
    ensures ToString(ReqwestToError(err)) == "unknown" && Phase(ReqwestToError(err)) == "unknown"
  {
  }

  /** An aborted body write (with no I/O error in the chain) is reported as "abandoned", in the application phase. */
  lemma BodyWriteAbortedIsAbandoned(err: HyperError)
    requires forall j | 0 <= j < |err.sources| :: !err.sources[j].IoCause?
    requires !err.isConnect && !err.isParse && !err.isUser && !err.isIncompleteMessage
    requires err.isBodyWriteAborted
    ensures ToString(HyperToError(err)) == "abandoned"
    ensures Phase(HyperToError(err)) == "application"
  {
  }
}
