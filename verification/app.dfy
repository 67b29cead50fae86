/** The whole service as one request-to-response transform: the
    cross-origin middleware around the router. The lemmas here state what
    the service promises about a single request, for every request. */
module App {
  import opened Headers
  import opened Http
  import Query
  import Scheme
  import Builders
  import Router
  import Cors

  /** Every response names the allowed origin; its status is 200, 404 or
      405; and a preflight is always answered with 200. */
  function Serve(req: Request): (resp: Response)
    ensures Get(resp.header, Cors.AllowOrigin) != ""
    ensures resp.status in {StatusOK, StatusNotFound, StatusMethodNotAllowed}
    ensures req.verb == MethodOptions ==> resp.status == StatusOK
  {
    Cors.Cors(req, Router.Dispatch)
  }

  /** Every response names the allowed origin: the inbound `Origin` when one
      was sent, the wildcard otherwise, whatever the method and path. */
  lemma AllowOriginOnEveryResponse(req: Request)
    ensures Get(req.header, OriginKey) == "" ==> Get(Serve(req).header, Cors.AllowOrigin) == "*"
    ensures Get(req.header, OriginKey) != ""
        ==> Get(Serve(req).header, Cors.AllowOrigin) == Get(req.header, OriginKey)
  {
  }

  /** A preflight is answered by the middleware: never 405, even on a route
      that accepts GET only, and with the fixed grant headers. */
  lemma PreflightAnswered(req: Request)
    requires req.verb == MethodOptions
    ensures Serve(req).status == StatusOK
    ensures Serve(req).body == NoBody
    ensures Get(Serve(req).header, Cors.AllowCredentials) == "true"
    ensures Get(Serve(req).header, Cors.AllowMethods) == "GET, POST, PUT, DELETE, PATCH, OPTIONS"
    ensures Get(Serve(req).header, Cors.MaxAge) == "3600"
    ensures Get(req.header, OriginKey) == "" ==> Get(Serve(req).header, Cors.AllowOrigin) == "*"
    ensures Get(req.header, Cors.RequestHeaders) == ""
        ==> Cors.AllowHeaders !in Serve(req).header && Get(Serve(req).header, Cors.AllowHeaders) == ""
  {
  }

  /** A preflight grants exactly the headers the client asked for. */
  lemma PreflightEchoesRequestedHeaders(req: Request)
    requires req.verb == MethodOptions
    ensures Get(Serve(req).header, Cors.AllowHeaders) == Get(req.header, Cors.RequestHeaders)
  {
  }

  /** On a known path, a method other than GET (and other than the
      preflight) is refused with 405; 405 arises in no other way. */
  lemma OnlyGetsAllowed(req: Request)
    ensures Serve(req).status == StatusMethodNotAllowed
        <==> req.path in Router.Routes && req.verb != MethodGet && req.verb != MethodOptions
  {
  }

  /** A path outside the route table is answered with 404 (unless it is a
      preflight, which the middleware answers first). */
  lemma UnknownPathNotFound(req: Request)
    requires req.verb != MethodOptions
    ensures Serve(req).status == StatusNotFound <==> req.path !in Router.Routes
  {
  }

  /** A plain `GET /get` with no query, no forwarding signal and no
      forwarded client: 200, no arguments, an empty origin, the `http` URL
      built from Host and path, and the request's headers returned as sent. */
  lemma {:induction false} GetBasic(req: Request)
    requires req.verb == MethodGet && req.path == "/get" && req.rawQuery == ""
    requires Scheme.NoSignal(req.header, req.tls)
    requires Get(req.header, Builders.ForwardedFor) == ""
    ensures Serve(req).status == StatusOK
    ensures Serve(req).body.Generic?
    ensures Serve(req).body.args == map[]
    ensures Serve(req).body.origin == ""
    ensures Serve(req).body.url == "http://" + req.host + "/get"
    ensures Serve(req).body.headers == req.header
    ensures Get(Serve(req).body.headers, UserAgentKey) == Get(req.header, UserAgentKey)
    ensures ContentTypeKey !in req.header ==> Get(Serve(req).body.headers, ContentTypeKey) == ""
  {
    UserAgentKeyCanonical();
    ContentTypeKeyCanonical();
  }

  /** Every `GET /get` returns the generic payload with the inbound header
      mapping untouched and a URL opening with the resolved scheme. */
  lemma GenericPayloadOnGet(req: Request)
    requires req.verb == MethodGet && req.path == "/get"
    ensures Serve(req).status == StatusOK && Serve(req).body.Generic?
    ensures Serve(req).body.headers == req.header
    ensures var prefix := Scheme.Resolve(req.header, req.tls) + "://";
            |Serve(req).body.url| >= |prefix| && Serve(req).body.url[..|prefix|] == prefix
  {
  }

  /** Any one forwarding header with its secure value, on an otherwise
      signal-free request, turns the URL of `GET /get` into an `https` one. */
  lemma {:induction false} ForwardedSchemeIsHttps(req: Request, h: Header, key: string)
    requires req.verb == MethodGet && req.path == "/get" && !req.tls
    requires Scheme.NoSignal(h, false) && Scheme.IsSignalKey(key)
    requires req.header == Set(h, key, Scheme.SecureValue(key))
    ensures Serve(req).status == StatusOK && Serve(req).body.Generic?
    ensures |Serve(req).body.url| >= 8 && Serve(req).body.url[..8] == "https://"
  {
    Scheme.SoleSignalIsHttps(h, key);
    GenericPayloadOnGet(req);
  }

  /** `/ip` reports the transport address exactly as received. */
  lemma IPEchoesRemoteAddr(req: Request)
    requires req.verb == MethodGet && req.path == "/ip"
    ensures Serve(req).status == StatusOK
    ensures Serve(req).body == IPOnly(req.remoteAddr)
  {
  }

  /** `/user-agent` reports the first `User-Agent` value sent, or the empty
      string when the header is absent or holds no value. */
  lemma UserAgentEchoed(req: Request)
    requires req.verb == MethodGet && req.path == "/user-agent"
    ensures Serve(req).status == StatusOK && Serve(req).body.UserAgentOnly?
    ensures Serve(req).body.userAgent
         == (if UserAgentKey in req.header && |req.header[UserAgentKey]| > 0
             then req.header[UserAgentKey][0] else "")
  {
  }

  /** `/headers` reports, under the canonical form of every inbound key, the
      inbound value list with the same values in the same order, and no key
      that was not sent. */
  lemma {:induction false} HeadersEchoed(req: Request)
    requires req.verb == MethodGet && req.path == "/headers"
    requires CanonicalKeys(req.header)
    ensures Serve(req).status == StatusOK && Serve(req).body.HeadersOnly?
    ensures forall k :: k in req.header ==>
      Canonicalize(k) in Serve(req).body.headers
      && Serve(req).body.headers[Canonicalize(k)] == req.header[k]
    ensures Serve(req).body.headers.Keys == req.header.Keys
  {
    forall k | k in req.header
      ensures Canonicalize(k) == k
    {
      CanonicalizeFixesCanonical(k);
    }
  }

  /** The request of the multi-value scenario, built the way a client
      library builds it: two `Set`s, then two `Add`s on one key. */
  function MultiValueHeader(): Header
  {
    var h := Set(Set(map[], UserAgentKey, "test"), "Foo-Header", "foo");
    Add(Add(h, "Bar-Header", "bar1"), "Bar-Header", "bar2")
  }

  lemma ScenarioKeysCanonical()
    ensures Canonicalize("Foo-Header") == "Foo-Header"
    ensures Canonicalize("Bar-Header") == "Bar-Header"
  {
    CanonicalizeFixesCanonical("Foo-Header");
    CanonicalizeFixesCanonical("Bar-Header");
  }

  /** The two single-valued headers of the scenario. */
  lemma SingleValuedPart()
    ensures Set(Set(map[], UserAgentKey, "test"), "Foo-Header", "foo")
         == map[UserAgentKey := ["test"], "Foo-Header" := ["foo"]]
  {
    UserAgentKeyCanonical();
    ScenarioKeysCanonical();
  }

  /** Two `Add`s on a key not yet present leave both values, in order. */
  lemma AddTwice(h: Header, key: string, first: string, second: string)
    requires Canonicalize(key) !in h
    ensures Add(Add(h, key, first), key, second) == h[Canonicalize(key) := [first, second]]
  {
    assert [first] + [second] == [first, second];
  }

  /** A header added twice is reported as a list of both values in the order
      they were added, next to the single-valued ones. */
  lemma {:induction false} HeadersKeepsRepeatedValues(req: Request)
    requires req.verb == MethodGet && req.path == "/headers"
    requires req.header == MultiValueHeader()
    ensures Serve(req).body.HeadersOnly?
    ensures Serve(req).body.headers
         == map[UserAgentKey := ["test"], "Foo-Header" := ["foo"], "Bar-Header" := ["bar1", "bar2"]]
  {
    SingleValuedPart();
    ScenarioKeysCanonical();
    AddTwice(map[UserAgentKey := ["test"], "Foo-Header" := ["foo"]], "Bar-Header", "bar1", "bar2");
  }
}
