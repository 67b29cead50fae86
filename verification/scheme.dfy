/** The scheme of the URL the client used, as far as the server can tell:
    the forwarding headers a proxy sets, else the state of the transport. */
module Scheme {
  import opened Headers

  const ForwardedProto := "X-Forwarded-Proto"
  const ForwardedProtocol := "X-Forwarded-Protocol"
  const ForwardedSsl := "X-Forwarded-Ssl"

  // One lemma per literal key, for the same solver budget reason as the
  // CORS header names.

  lemma ForwardedProtoCanonical()
    ensures Canonicalize(ForwardedProto) == ForwardedProto
  {
    CanonicalizeFixesCanonical(ForwardedProto);
  }

  lemma ForwardedProtocolCanonical()
    ensures Canonicalize(ForwardedProtocol) == ForwardedProtocol
  {
    CanonicalizeFixesCanonical(ForwardedProtocol);
  }

  lemma ForwardedSslCanonical()
    ensures Canonicalize(ForwardedSsl) == ForwardedSsl
  {
    CanonicalizeFixesCanonical(ForwardedSsl);
  }

  lemma SignalKeysCanonical()
    ensures Canonicalize(ForwardedProto) == ForwardedProto
    ensures Canonicalize(ForwardedProtocol) == ForwardedProtocol
    ensures Canonicalize(ForwardedSsl) == ForwardedSsl
  {
    ForwardedProtoCanonical();
    ForwardedProtocolCanonical();
    ForwardedSslCanonical();
  }

  /** The signals are consulted in a fixed order and the first one present
      decides: a literal protocol named by `X-Forwarded-Proto`, then by
      `X-Forwarded-Protocol`, then `X-Forwarded-Ssl: on`, then TLS. */
  function Resolve(h: Header, tls: bool): (scheme: string)
    ensures scheme != ""
    ensures Get(h, ForwardedProto) != "" ==> scheme == Get(h, ForwardedProto)
    ensures Get(h, ForwardedProto) == "" && Get(h, ForwardedProtocol) != ""
        ==> scheme == Get(h, ForwardedProtocol)
  {
    if Get(h, ForwardedProto) != "" then Get(h, ForwardedProto)
    else if Get(h, ForwardedProtocol) != "" then Get(h, ForwardedProtocol)
    else if Get(h, ForwardedSsl) == "on" then "https"
    else if tls then "https"
    else "http"
  }

  /** No forwarding header and no TLS: the signal-free state. */
  predicate NoSignal(h: Header, tls: bool)
  {
    Get(h, ForwardedProto) == "" && Get(h, ForwardedProtocol) == ""
    && Get(h, ForwardedSsl) == "" && !tls
  }

  /** The value each forwarding header carries to announce a secure
      client-facing connection. */
  function SecureValue(key: string): string
  {
    if key == ForwardedSsl then "on" else "https"
  }

  predicate IsSignalKey(key: string)
  {
    key == ForwardedProto || key == ForwardedProtocol || key == ForwardedSsl
  }

  /** With neither literal-protocol header, the scheme is secure exactly when
      `X-Forwarded-Ssl` is `on` or the transport is TLS, and plain HTTP
      otherwise. */
  lemma ResolveWithoutLiteral(h: Header, tls: bool)
    requires Get(h, ForwardedProto) == "" && Get(h, ForwardedProtocol) == ""
    ensures Resolve(h, tls) == "https" <==> Get(h, ForwardedSsl) == "on" || tls
    ensures Resolve(h, tls) != "https" ==> Resolve(h, tls) == "http"
  {
  }

  /** Adding any one forwarding header, with its secure value, to a request
      that carried no signal makes the scheme `https`; without it the scheme
      is `http`. */
  lemma {:induction false} SoleSignalIsHttps(h: Header, key: string)
    requires NoSignal(h, false)
    requires IsSignalKey(key)
    ensures Resolve(h, false) == "http"
    ensures Resolve(Set(h, key, SecureValue(key)), false) == "https"
  {
    SignalKeysCanonical();
    var h' := Set(h, key, SecureValue(key));
    if key == ForwardedProto {
      assert Get(h', ForwardedProto) == "https";
    } else if key == ForwardedProtocol {
      GetAfterSetOther(h, key, "https", ForwardedProto);
      assert Get(h', ForwardedProtocol) == "https";
    } else {
      GetAfterSetOther(h, key, "on", ForwardedProto);
      GetAfterSetOther(h, key, "on", ForwardedProtocol);
      assert Get(h', ForwardedSsl) == "on";
    }
  }
}
