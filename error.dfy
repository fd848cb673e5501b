/**
 * NEL error types (src/error.rs): an error is a class ("tcp") and a
 * subclass ("timed_out"); its phase and its wire form ("tcp.timed_out")
 * follow from them. `FromIo` maps an I/O error onto the vocabulary of the
 * W3C Network Error Logging draft (section 6, "Predefined Network Error Types").
 */
module NelError {
  import opened Strings

  datatype Error = Error(errorClass: string, subclass: string)

  /** `Error::new`: class and subclass are stored as given. */
  function New(errorClass: string, subclass: string): (e: Error)
    ensures e.errorClass == errorClass && e.subclass == subclass
  {
    Error(errorClass, subclass)
  }

  const Phases: set<string> := {"dns", "connection", "application", "unknown"}

  /** The phase of the connection in which an error of this class occurs. */
  function Phase(e: Error): (p: string)
    ensures p in Phases
    ensures p == "dns" <==> e.errorClass == "dns"
    ensures p == "connection" <==> e.errorClass in {"tcp", "udp", "tls"}
    ensures p == "application" <==> e.errorClass in {"http", "abandoned"}
  {
    if e.errorClass == "dns" then "dns"
    else if e.errorClass == "tcp" || e.errorClass == "udp" || e.errorClass == "tls" then "connection"
    else if e.errorClass == "http" || e.errorClass == "abandoned" then "application"
    else "unknown"
  }

  /** The NEL type string: bare "unknown" and "abandoned", else "class.subclass". */
  function ToString(e: Error): (s: string)
    ensures e.errorClass == "unknown" || e.errorClass == "abandoned" ==> s == e.errorClass
    ensures e.errorClass != "unknown" && e.errorClass != "abandoned" ==>
      |s| == |e.errorClass| + 1 + |e.subclass| && s[..|e.errorClass|] == e.errorClass
      && s[|e.errorClass|] == '.' && s[|e.errorClass| + 1..] == e.subclass
  {
    if e.errorClass == "unknown" then "unknown"
    else if e.errorClass == "abandoned" then "abandoned"
    else e.errorClass + "." + e.subclass
  }

  /** Index of the first '.' of `t`, or `|t|` when there is none. */
  function FirstDot(t: string): (k: nat)
    ensures k <= |t|
    ensures forall j | 0 <= j < k :: t[j] != '.'
    ensures k < |t| ==> t[k] == '.'
  {
    if t == [] then 0
    else if t[0] == '.' then 0
    else 1 + FirstDot(t[1..])
  }

  /** Reads a NEL type string back into class and subclass, splitting at the first dot. */
  function SplitType(t: string): Error {
    var k := FirstDot(t);
    if k < |t| then Error(t[..k], t[k + 1..]) else Error(t, "")
  }

  /**
   * `SplitType` undoes `ToString` for every class without a dot, except that
   * the subclass of an "unknown" or "abandoned" error is not written out.
   */
  lemma ToStringRoundTrip(e: Error)
    requires '.' !in e.errorClass
    ensures e.errorClass in {"unknown", "abandoned"} ==> SplitType(ToString(e)) == Error(e.errorClass, "")
    ensures e.errorClass !in {"unknown", "abandoned"} ==> SplitType(ToString(e)) == e
  {
    var t := ToString(e);
    if e.errorClass !in {"unknown", "abandoned"} {
      var c := e.errorClass;
      assert t == c + "." + e.subclass;
      assert forall j | 0 <= j < |c| :: t[j] == c[j];
      assert t[|c|] == '.';
      var k := FirstDot(t);
      assert k == |c|;
      assert t[..k] == c;
      assert t[k + 1..] == e.subclass;
    }
  }

  /** Two errors with dot-free classes other than "unknown" and "abandoned" have the same type string only if they are equal. */
  lemma ToStringInjective(e1: Error, e2: Error)
    requires '.' !in e1.errorClass && '.' !in e2.errorClass
    requires e1.errorClass !in {"unknown", "abandoned"} && e2.errorClass !in {"unknown", "abandoned"}
    requires ToString(e1) == ToString(e2)
    ensures e1 == e2
  {
    ToStringRoundTrip(e1);
    ToStringRoundTrip(e2);
  }

  /** The phase written beside a type string agrees with the phase that the type string itself names. */
  lemma PhaseAgreesWithType(e: Error)
    requires '.' !in e.errorClass
    ensures Phase(SplitType(ToString(e))) == Phase(e)
  {
    ToStringRoundTrip(e);
  }

  /** `std::io::ErrorKind`: the four kinds the classifier names, and every other kind. */
  datatype IoErrorKind = TimedOut | ConnectionReset | ConnectionRefused | ConnectionAborted | OtherKind

  /** What `io::Error::get_ref` finds inside: nothing, a rustls error, or another error. */
  datatype Inner = NoInner | RustlsInner | OtherInner

  /** An `io::Error`: its kind, its display text and its inner error. */
  datatype IoError = IoError(kind: IoErrorKind, message: string, inner: Inner)

  /** Every error other than "unknown" that `FromIo` can produce: eleven NEL types of the dns, tcp and tls classes. */
  const IoErrors: set<Error> := {
    Error("tcp", "timed_out"), Error("tcp", "reset"), Error("tcp", "refused"), Error("tcp", "aborted"),
    Error("dns", "name_not_resolved"), Error("tcp", "address_unreachable"),
    Error("tls", "cert.date_invalid"), Error("tls", "cert.authority_invalid"), Error("tls", "cert.name_invalid"),
    Error("tcp", "failed"), Error("tls", "protocol.error")
  }

  /**
   * `From<&std::io::Error> for Error`: the kind first, then substrings of the
   * lowercased message in a fixed order, then the inner error.
   */
  function FromIo(err: IoError): (r: Error)
    ensures r in IoErrors || r.errorClass == "unknown"
    ensures r.errorClass in {"dns", "tcp", "tls", "unknown"}
    ensures Phase(r) != "application"
    ensures r.errorClass == "unknown" ==> err.kind == OtherKind && err.inner == OtherInner && r.subclass == err.message
  {
    match err.kind
    case TimedOut => New("tcp", "timed_out")
    case ConnectionReset => New("tcp", "reset")
    case ConnectionRefused => New("tcp", "refused")
    case ConnectionAborted => New("tcp", "aborted")
    case OtherKind =>
      var msg := ToLower(err.message);
      if Contains(msg, "no address") || Contains(msg, "name or service not known") then
        New("dns", "name_not_resolved")
      else if Contains(msg, "no route to host") then New("tcp", "address_unreachable")
      else if Contains(msg, "unreachable") then New("tcp", "address_unreachable")
      else if Contains(msg, "expired") then New("tls", "cert.date_invalid")
      else if Contains(msg, "unknownissuer") then New("tls", "cert.authority_invalid")
      else if Contains(msg, "certnotvalidforname") then New("tls", "cert.name_invalid")
      else
        match err.inner
        case NoInner => New("tcp", "failed")
        case RustlsInner => New("tls", "protocol.error")
        case OtherInner => New("unknown", err.message)
  }

  /** The four connection kinds decide the result whatever the message and the inner error. */
  lemma IoKindDecides(msg: string, inner: Inner)
    ensures FromIo(IoError(TimedOut, msg, inner)) == Error("tcp", "timed_out")
    ensures FromIo(IoError(ConnectionReset, msg, inner)) == Error("tcp", "reset")
    ensures FromIo(IoError(ConnectionRefused, msg, inner)) == Error("tcp", "refused")
    ensures FromIo(IoError(ConnectionAborted, msg, inner)) == Error("tcp", "aborted")
  {
  }

  predicate NamesDnsFailure(msg: string) {
    Contains(msg, "no address") || Contains(msg, "name or service not known")
  }

  predicate NamesUnreachable(msg: string) {
    Contains(msg, "no route to host") || Contains(msg, "unreachable")
  }

  /**
   * For every other kind, the message rules apply in a fixed order: each one
   * decides exactly when no earlier rule matched the lowercased message, and
   * the inner error decides when none matched.
   */
  lemma IoMessagePriority(err: IoError)
    requires err.kind == OtherKind
    ensures var m := ToLower(err.message);
      && (FromIo(err) == Error("dns", "name_not_resolved") <==> NamesDnsFailure(m))
      && (FromIo(err) == Error("tcp", "address_unreachable") <==>
            !NamesDnsFailure(m) && NamesUnreachable(m))
      && (FromIo(err) == Error("tls", "cert.date_invalid") <==>
            !NamesDnsFailure(m) && !NamesUnreachable(m) && Contains(m, "expired"))
      && (FromIo(err) == Error("tls", "cert.authority_invalid") <==>
            !NamesDnsFailure(m) && !NamesUnreachable(m) && !Contains(m, "expired")
            && Contains(m, "unknownissuer"))
      && (FromIo(err) == Error("tls", "cert.name_invalid") <==>
            !NamesDnsFailure(m) && !NamesUnreachable(m) && !Contains(m, "expired")
            && !Contains(m, "unknownissuer") && Contains(m, "certnotvalidforname"))
    ensures var m := ToLower(err.message);
      !NamesDnsFailure(m) && !NamesUnreachable(m) && !Contains(m, "expired")
      && !Contains(m, "unknownissuer") && !Contains(m, "certnotvalidforname") ==>
        FromIo(err) == match err.inner
          case NoInner => Error("tcp", "failed")
          case RustlsInner => Error("tls", "protocol.error")
          case OtherInner => Error("unknown", err.message)
  {
  }

  /**
   * Message matching ignores case: messages that lowercase alike give the
   * same type string and phase, and the same error unless its class is
   * "unknown" (whose subclass is the message as written).
   */
  lemma IoMessageCaseInsensitive(e1: IoError, e2: IoError)
    requires e1.kind == e2.kind && e1.inner == e2.inner
    requires ToLower(e1.message) == ToLower(e2.message)
    ensures ToString(FromIo(e1)) == ToString(FromIo(e2))
    ensures Phase(FromIo(e1)) == Phase(FromIo(e2))
    ensures FromIo(e1).errorClass != "unknown" ==> FromIo(e1) == FromIo(e2)
  {
    IoClassIgnoresCase(e1, e2);
    if FromIo(e1).errorClass == "unknown" {
      assert ToString(FromIo(e1)) == "unknown" == ToString(FromIo(e2));
    }
  }

  /** The class the I/O rules pick, and the whole error outside class "unknown", depend on the message lowercased. */
  lemma IoClassIgnoresCase(e1: IoError, e2: IoError)
    requires e1.kind == e2.kind && e1.inner == e2.inner
    requires ToLower(e1.message) == ToLower(e2.message)
    ensures FromIo(e1).errorClass == FromIo(e2).errorClass
    ensures FromIo(e1).errorClass != "unknown" ==> FromIo(e1) == FromIo(e2)
  {
  }

  /** In particular, lowercasing the message first changes neither the type string nor the phase. */
  lemma IoMessageLowercased(err: IoError)
    ensures ToString(FromIo(err.(message := ToLower(err.message)))) == ToString(FromIo(err))
    ensures Phase(FromIo(err.(message := ToLower(err.message)))) == Phase(FromIo(err))
  {
    ToLowerIdempotent(err.message);
    IoMessageCaseInsensitive(err.(message := ToLower(err.message)), err);
  }
}
