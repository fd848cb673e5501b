/**
 * Substring facts about the representative messages behind the scenarios
 * of the client tests (src/error/reqwest.rs:97-147). Each message is a
 * fixed head followed by the part that names the failure; the facts are
 * proved on the two parts so that no long literal has to be searched
 * whole.
 */
module TestMessages {
  import opened Strings

  /** The resolver's message for a host name it cannot resolve. */
  const DnsHead := "failed to lookup address information: "
  const DnsTail := "Name or service not known"

  /** How rustls describes an invalid certificate; the tail names the reason. */
  const RustlsHead := "invalid certificate: "

  /** How OpenSSL, under native-tls, describes a failed verification. */
  const NativeHead := "certificate verify failed "

  lemma DnsMessageNamesDnsFailure()
    ensures Contains(ToLower(DnsHead + DnsTail), "name or service not known")
  {
    ToLowerAppend(DnsHead, DnsTail);
    assert ToLower(DnsTail) == "name or service not known";
    ContainsAt(ToLower(DnsTail), "name or service not known", 0);
    ContainsSuffixPart(ToLower(DnsHead), ToLower(DnsTail), "name or service not known");
  }

  /** The rustls head is already lower case, so lowercasing touches only the tail. */
  lemma RustlsLower(tail: string, lowered: string)
    requires ToLower(tail) == lowered
    ensures ToLower(RustlsHead + tail) == RustlsHead + lowered
  {
    ToLowerAppend(RustlsHead, tail);
    assert ToLower(RustlsHead) == RustlsHead;
  }

  lemma CertExpiredLower()
    ensures ToLower("CertExpired") == "certexpired"
  {
  }

  lemma UnknownIssuerLower()
    ensures ToLower("UnknownIssuer") == "unknownissuer"
  {
  }

  lemma CertNotValidForNameLower()
    ensures ToLower("CertNotValidForName") == "certnotvalidforname"
  {
  }

  lemma CertExpiredNotDns()
    ensures !Contains(RustlsHead + "certexpired", "no address")
    ensures !Contains(RustlsHead + "certexpired", "name or service not known")
  {
    NotContainsInParts(RustlsHead, "certexpired", "no address", 1);
    NotContainsInParts(RustlsHead, "certexpired", "name or service not known", 2);
  }

  /** A rustls reason without an 'h' names neither kind of unreachable host. */
  lemma RustlsNotUnreachable(lowered: string)
    requires 'h' !in lowered
    ensures !Contains(RustlsHead + lowered, "no route to host")
    ensures !Contains(RustlsHead + lowered, "unreachable")
  {
    NotContainsInParts(RustlsHead, lowered, "no route to host", 12);
    NotContainsInParts(RustlsHead, lowered, "unreachable", 6);
  }

  lemma CertExpiredNamesExpiry()
    ensures Contains(RustlsHead + "certexpired", "expired")
  {
    ContainsAt("certexpired", "expired", 4);
    ContainsSuffixPart(RustlsHead, "certexpired", "expired");
  }

  lemma UnknownIssuerNotDns()
    ensures !Contains(RustlsHead + "unknownissuer", "no address")
    ensures !Contains(RustlsHead + "unknownissuer", "name or service not known")
  {
    NotContainsSplit(RustlsHead, "unknownissuer", "no address", 1);
    NotContainsInParts(RustlsHead, "unknownissuer", "name or service not known", 2);
  }

  lemma UnknownIssuerNamesIssuer()
    ensures !Contains(RustlsHead + "unknownissuer", "expired")
    ensures Contains(RustlsHead + "unknownissuer", "unknownissuer")
  {
    NotContainsInParts(RustlsHead, "unknownissuer", "expired", 1);
    ContainsAt("unknownissuer", "unknownissuer", 0);
    ContainsSuffixPart(RustlsHead, "unknownissuer", "unknownissuer");
  }

  lemma CertNotValidForNameNotDns()
    ensures !Contains(RustlsHead + "certnotvalidforname", "no address")
    ensures !Contains(RustlsHead + "certnotvalidforname", "name or service not known")
  {
    NotContainsInParts(RustlsHead, "certnotvalidforname", "no address", 8);
    NotContainsInParts(RustlsHead, "certnotvalidforname", "name or service not known", 8);
  }

  lemma CertNotValidForNameNotOtherCert()
    ensures !Contains(RustlsHead + "certnotvalidforname", "expired")
    ensures !Contains(RustlsHead + "certnotvalidforname", "unknownissuer")
  {
    NotContainsInParts(RustlsHead, "certnotvalidforname", "expired", 1);
    NotContainsInParts(RustlsHead, "certnotvalidforname", "unknownissuer", 0);
  }

  lemma CertNotValidForNameNamesHost()
    ensures Contains(RustlsHead + "certnotvalidforname", "certnotvalidforname")
  {
    ContainsAt("certnotvalidforname", "certnotvalidforname", 0);
    ContainsSuffixPart(RustlsHead, "certnotvalidforname", "certnotvalidforname");
  }

  /** The OpenSSL message for a failed verification, with its reason. */
  function NativeMessage(reason: string): (m: string)
    ensures |m| == |NativeHead| + |reason| + 2
  {
    NativeHead + "(" + reason + ")"
  }

  lemma NativeMessageNamesReason(reason: string)
    ensures Contains(NativeMessage(reason), reason)
  {
    var m := NativeMessage(reason);
    assert m[|NativeHead| + 1..|NativeHead| + 1 + |reason|] == reason;
    ContainsAt(m, reason, |NativeHead| + 1);
  }

  lemma NativeMessageLacks(reason: string, pat: string, k: int)
    requires 0 <= k < |pat| && pat[k] !in NativeHead && pat[k] !in reason
    requires pat[k] != '(' && pat[k] != ')'
    ensures !Contains(NativeMessage(reason), pat)
  {
    NotContainsMissingChar(NativeMessage(reason), pat, k);
  }

  /** Neither OpenSSL reason for a bad certificate chain mentions a host name mismatch. */
  lemma NativeReasonsLackHostname()
    ensures !Contains(NativeMessage("certificate has expired"), "Hostname mismatch")
    ensures !Contains(NativeMessage("self signed certificate in certificate chain"), "Hostname mismatch")
  {
    NativeMessageLacks("certificate has expired", "Hostname mismatch", 0);
    NativeMessageLacks("self signed certificate in certificate chain", "Hostname mismatch", 0);
  }

  lemma NativeSelfSignedNotExpired()
    ensures !Contains(NativeMessage("self signed certificate in certificate chain"), "certificate has expired")
  {
    NativeMessageLacks("self signed certificate in certificate chain", "certificate has expired", 17);
  }

  // The type strings the tests compare against, spelled out once each;
  // helpers for the scenarios, not results of their own.

  lemma DnsTypeString()
    ensures "dns" + "." + "name_not_resolved" == "dns.name_not_resolved"
  {
  }

  lemma DateInvalidTypeString()
    ensures "tls" + "." + "cert.date_invalid" == "tls.cert.date_invalid"
  {
  }

  lemma AuthorityInvalidTypeString()
    ensures "tls" + "." + "cert.authority_invalid" == "tls.cert.authority_invalid"
  {
  }

  lemma NameInvalidTypeString()
    ensures "tls" + "." + "cert.name_invalid" == "tls.cert.name_invalid"
  {
  }
}
