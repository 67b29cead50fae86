/** The four payload builders. Each reads the request snapshot and nothing
    else; none of them looks at the method, which the router has already
    checked. */
module Builders {
  import opened Headers
  import opened Http
  import Query
  import Scheme

  /** The header by which a proxy identifies the client it forwards for. */
  const ForwardedFor := "X-Forwarded-For"

  /** The absolute URL the client asked for: the resolved scheme, the Host
      value and the path as received, and the raw query when there is one. */
  function RequestURL(req: Request): (url: string)
    ensures var prefix := Scheme.Resolve(req.header, req.tls) + "://";
            && |url| >= |prefix| + |req.host| + |req.path|
            && url[..|prefix|] == prefix
            && url[|prefix|..|prefix| + |req.host|] == req.host
            && url[|prefix| + |req.host|..|prefix| + |req.host| + |req.path|] == req.path
            && (req.rawQuery == "" ==> |url| == |prefix| + |req.host| + |req.path|)
            && (req.rawQuery != "" ==> url[|prefix| + |req.host| + |req.path|..] == "?" + req.rawQuery)
  {
    var prefix := Scheme.Resolve(req.header, req.tls) + "://";
    var tail := if req.rawQuery == "" then "" else "?" + req.rawQuery;
    var url := prefix + req.host + req.path + tail;
    assert url[..|prefix|] == prefix;
    assert url[|prefix|..|prefix| + |req.host|] == req.host;
    assert url[|prefix| + |req.host|..|prefix| + |req.host| + |req.path|] == req.path;
    assert url[|prefix| + |req.host| + |req.path|..] == tail;
    url
  }

  /** The generic payload: arguments, all headers untouched, the client a
      proxy forwarded for (never the transport address) and the URL. */
  function GenericBody(req: Request): (b: Body)
    ensures b.Generic?
    ensures b.headers == req.header
    ensures req.rawQuery == "" ==> b.args == map[]
    ensures b.origin == Get(req.header, ForwardedFor)
    ensures b.url == RequestURL(req)
  {
    Query.ParseQueryEmptyIff(req.rawQuery);
    Generic(Query.ParseQuery(req.rawQuery), req.header, Get(req.header, ForwardedFor), RequestURL(req))
  }

  /** The generic payload does not read the transport address: two requests
      that differ only there get the same payload. */
  lemma GenericIgnoresRemoteAddr(req: Request, addr: string)
    ensures GenericBody(req.(remoteAddr := addr)) == GenericBody(req)
  {
  }

  /** The transport address, verbatim: no port stripping, no normalization. */
  function IPBody(req: Request): (b: Body)
    ensures b.IPOnly? && b.origin == req.remoteAddr
  {
    IPOnly(req.remoteAddr)
  }

  /** The first `User-Agent` value sent, or the empty string when the header
      is absent or holds no value. */
  function UserAgentBody(req: Request): (b: Body)
    ensures b.UserAgentOnly?
    ensures b.userAgent
         == (if UserAgentKey in req.header && |req.header[UserAgentKey]| > 0
             then req.header[UserAgentKey][0] else "")
  {
    UserAgentKeyCanonical();
    UserAgentOnly(Get(req.header, UserAgentKey))
  }

  /** The whole header mapping, every value list in its arrival order. */
  function HeadersBody(req: Request): (b: Body)
    ensures b.HeadersOnly? && b.headers == req.header
    ensures CanonicalKeys(req.header) ==> CanonicalKeys(b.headers)
  {
    HeadersOnly(req.header)
  }
}
