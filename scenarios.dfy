/**
 * The outcomes asserted by the client tests (src/error/reqwest.rs:97-147),
 * for both TLS back ends the tests build clients with. The live requests
 * are replaced by the error chains the two back ends produce, with
 * representative messages: rustls reports a certificate failure as an I/O
 * error wrapping its own error, native-tls over OpenSSL as a plain source
 * of hyper's connect error.
 */
module Scenarios {
  import opened Strings
  import opened NelError
  import opened ReqwestError
  import opened TestMessages

  /** A request whose connection attempt failed with the chain `cause`. */
  function ConnectFailure(cause: seq<Cause>): Reqwest {
    var h := HyperError(true, false, false, false, false, false, false, false,
                        "error trying to connect", cause);
    Reqwest("error sending request", [HyperCause(h)] + cause)
  }

  function RustlsFailure(message: string): Reqwest {
    ConnectFailure([IoCause(IoError(OtherKind, message, RustlsInner))])
  }

  function NativeTlsFailure(message: string): Reqwest {
    ConnectFailure([OtherCause(message)])
  }

  /** The hyper connect error decides: an I/O cause if there is one, its immediate source otherwise. */
  lemma ConnectFailureDecidedByHyper(cause: seq<Cause>)
    ensures ReqwestToError(ConnectFailure(cause)) ==
      (var k := FirstIoIndex(cause); if k < |cause| then FromIo(cause[k].io) else FromConnectSource(cause))
  {
    var e := ConnectFailure(cause);
    assert e.sources[0].HyperCause?;
    NearestHyperCauseDecides(e, 0);
  }

  lemma RustlsFailureIsIoError(message: string)
    ensures ReqwestToError(RustlsFailure(message)) == FromIo(IoError(OtherKind, message, RustlsInner))
  {
    ConnectFailureDecidedByHyper([IoCause(IoError(OtherKind, message, RustlsInner))]);
  }

  lemma NativeTlsFailureIsConnectError(message: string)
    ensures ReqwestToError(NativeTlsFailure(message)) == FromConnectSource([OtherCause(message)])
  {
    ConnectFailureDecidedByHyper([OtherCause(message)]);
  }

  /** Test `no_dns`: an unresolvable host is `dns.name_not_resolved`, phase "dns". */
  lemma NoDnsScenario()
    ensures var e := ReqwestToError(ConnectFailure([
        OtherCause("dns error: " + DnsHead + DnsTail), IoCause(IoError(OtherKind, DnsHead + DnsTail, OtherInner))]));
      ToString(e) == "dns.name_not_resolved" && Phase(e) == "dns"
  {
    var cause := [OtherCause("dns error: " + DnsHead + DnsTail), IoCause(IoError(OtherKind, DnsHead + DnsTail, OtherInner))];
    ConnectFailureDecidedByHyper(cause);
    assert FirstIoIndex(cause) == 1;
    DnsMessageNamesDnsFailure();
    DnsTypeString();
  }

  /** Test `expired_cert` with rustls: `tls.cert.date_invalid`, phase "connection". */
  lemma ExpiredCertRustls()
    ensures var e := ReqwestToError(RustlsFailure(RustlsHead + "CertExpired"));
      ToString(e) == "tls.cert.date_invalid" && Phase(e) == "connection"
  {
    RustlsFailureIsIoError(RustlsHead + "CertExpired");
    CertExpiredLower();
    RustlsLower("CertExpired", "certexpired");
    CertExpiredNotDns();
    RustlsNotUnreachable("certexpired");
    CertExpiredNamesExpiry();
    DateInvalidTypeString();
  }

  /** Test `expired_cert` with native-tls: `tls.cert.date_invalid`, phase "connection". */
  lemma ExpiredCertNativeTls()
    ensures var e := ReqwestToError(NativeTlsFailure(NativeMessage("certificate has expired")));
      ToString(e) == "tls.cert.date_invalid" && Phase(e) == "connection"
  {
    NativeTlsFailureIsConnectError(NativeMessage("certificate has expired"));
    NativeReasonsLackHostname();
    NativeMessageNamesReason("certificate has expired");
    DateInvalidTypeString();
  }

  /** Test `untrusted_cert` with rustls: `tls.cert.authority_invalid`, phase "connection". */
  lemma UntrustedCertRustls()
    ensures var e := ReqwestToError(RustlsFailure(RustlsHead + "UnknownIssuer"));
      ToString(e) == "tls.cert.authority_invalid" && Phase(e) == "connection"
  {
    RustlsFailureIsIoError(RustlsHead + "UnknownIssuer");
    UnknownIssuerLower();
    RustlsLower("UnknownIssuer", "unknownissuer");
    UnknownIssuerNotDns();
    RustlsNotUnreachable("unknownissuer");
    UnknownIssuerNamesIssuer();
    AuthorityInvalidTypeString();
  }

  /** Test `untrusted_cert` with native-tls: `tls.cert.authority_invalid`, phase "connection". */
  lemma UntrustedCertNativeTls()
    ensures var e := ReqwestToError(NativeTlsFailure(NativeMessage("self signed certificate in certificate chain")));
      ToString(e) == "tls.cert.authority_invalid" && Phase(e) == "connection"
  {
    NativeTlsFailureIsConnectError(NativeMessage("self signed certificate in certificate chain"));
    NativeReasonsLackHostname();
    NativeSelfSignedNotExpired();
    NativeMessageNamesReason("self signed certificate in certificate chain");
    AuthorityInvalidTypeString();
  }

  /** Test `invalid_name` with rustls: `tls.cert.name_invalid`, phase "connection". */
  lemma InvalidNameRustls()
    ensures var e := ReqwestToError(RustlsFailure(RustlsHead + "CertNotValidForName"));
      ToString(e) == "tls.cert.name_invalid" && Phase(e) == "connection"
  {
    RustlsFailureIsIoError(RustlsHead + "CertNotValidForName");
    CertNotValidForNameLower();
    RustlsLower("CertNotValidForName", "certnotvalidforname");
    CertNotValidForNameNotDns();
    RustlsNotUnreachable("certnotvalidforname");
    CertNotValidForNameNotOtherCert();
    CertNotValidForNameNamesHost();
    NameInvalidTypeString();
  }

  /** Test `invalid_name` with native-tls: `tls.cert.name_invalid`, phase "connection". */
  lemma InvalidNameNativeTls()
    ensures var e := ReqwestToError(NativeTlsFailure(NativeMessage("Hostname mismatch")));
      ToString(e) == "tls.cert.name_invalid" && Phase(e) == "connection"
  {
    NativeTlsFailureIsConnectError(NativeMessage("Hostname mismatch"));
    NativeMessageNamesReason("Hostname mismatch");
    NameInvalidTypeString();
  }

  /**
   * The connect rules match the source's text as written: the reason in
   * capitals is no certificate error there and falls back to `tcp.failed`.
   */
  lemma ConnectMatchIsCaseSensitive()
    ensures FromConnectSource([OtherCause("CERTIFICATE HAS EXPIRED")]) == Error("tcp", "failed")
  {
    var upper := "CERTIFICATE HAS EXPIRED";
    NotContainsMissingChar(upper, "Hostname mismatch", 1);
    NotContainsMissingChar(upper, "certificate has expired", 0);
    NotContainsMissingChar(upper, "self signed certificate in certificate chain", 0);
  }

  /** The I/O rules match the message lowercased: the same words in capitals are a certificate error. */
  lemma IoMatchIgnoresCase()
    ensures FromIo(IoError(OtherKind, "CERT EXPIRED", NoInner)) == Error("tls", "cert.date_invalid")
  {
    var m := "cert expired";
    assert ToLower("CERT EXPIRED") == m;
    NotContainsMissingChar(m, "no address", 0);
    NotContainsMissingChar(m, "name or service not known", 0);
    NotContainsMissingChar(m, "no route to host", 0);
    NotContainsMissingChar(m, "unreachable", 0);
    ContainsAt(m, "expired", 5);
  }
}
