/** The cross-origin middleware that wraps every request: it names the
    allowed origin on every response, and answers a preflight (`OPTIONS`)
    itself without consulting the router. */
module Cors {
  import opened Headers
  import opened Http

  const AllowOrigin := "Access-Control-Allow-Origin"
  const AllowCredentials := "Access-Control-Allow-Credentials"
  const AllowMethods := "Access-Control-Allow-Methods"
  const MaxAge := "Access-Control-Max-Age"
  const AllowHeaders := "Access-Control-Allow-Headers"
  const RequestHeaders := "Access-Control-Request-Headers"

  /** Fixed, whatever the methods of the route asked about. */
  const PreflightMethods := "GET, POST, PUT, DELETE, PATCH, OPTIONS"
  const PreflightMaxAge := "3600"

  // One lemma per literal key: the solver checks `IsCanonical` of a literal
  // character by character, and all five in one proof exceed its budget.

  lemma AllowOriginCanonical()
    ensures Canonicalize(AllowOrigin) == AllowOrigin
  {
    CanonicalizeFixesCanonical(AllowOrigin);
  }

  lemma AllowCredentialsCanonical()
    ensures Canonicalize(AllowCredentials) == AllowCredentials
  {
    CanonicalizeFixesCanonical(AllowCredentials);
  }

  lemma AllowMethodsCanonical()
    ensures Canonicalize(AllowMethods) == AllowMethods
  {
    CanonicalizeFixesCanonical(AllowMethods);
  }

  lemma MaxAgeCanonical()
    ensures Canonicalize(MaxAge) == MaxAge
  {
    CanonicalizeFixesCanonical(MaxAge);
  }

  lemma AllowHeadersCanonical()
    ensures Canonicalize(AllowHeaders) == AllowHeaders
  {
    CanonicalizeFixesCanonical(AllowHeaders);
  }

  lemma KeysCanonical()
    ensures Canonicalize(AllowOrigin) == AllowOrigin
    ensures Canonicalize(AllowCredentials) == AllowCredentials
    ensures Canonicalize(AllowMethods) == AllowMethods
    ensures Canonicalize(MaxAge) == MaxAge
    ensures Canonicalize(AllowHeaders) == AllowHeaders
  {
    AllowOriginCanonical();
    AllowCredentialsCanonical();
    AllowMethodsCanonical();
    MaxAgeCanonical();
    AllowHeadersCanonical();
  }

  /** The inbound `Origin` value, or the wildcard when none was sent. */
  function AllowedOrigin(req: Request): string
  {
    if Get(req.header, OriginKey) != "" then Get(req.header, OriginKey) else "*"
  }

  /** The keys a preflight answer carries: `Access-Control-Allow-Headers`
      only when the client asked for headers. */
  function PreflightKeys(req: Request): set<string>
  {
    {AllowOrigin, AllowCredentials, AllowMethods, MaxAge}
    + (if Get(req.header, RequestHeaders) != "" then {AllowHeaders} else {})
  }

  /** The answer to a preflight: 200, no payload, the fixed grant headers
      and an echo of the requested headers. */
  function Preflight(req: Request): (resp: Response)
    ensures resp.status == StatusOK && resp.body == NoBody
    ensures resp.header.Keys == PreflightKeys(req)
    ensures Get(resp.header, AllowOrigin) == AllowedOrigin(req)
    ensures Get(resp.header, AllowCredentials) == "true"
    ensures Get(resp.header, AllowMethods) == PreflightMethods
    ensures Get(resp.header, MaxAge) == PreflightMaxAge
    ensures Get(resp.header, AllowHeaders) == Get(req.header, RequestHeaders)
    ensures resp.header[AllowOrigin] == [AllowedOrigin(req)]
    ensures resp.header[AllowCredentials] == ["true"]
    ensures resp.header[AllowMethods] == [PreflightMethods]
    ensures resp.header[MaxAge] == [PreflightMaxAge]
    ensures AllowHeaders in resp.header ==> resp.header[AllowHeaders] == [Get(req.header, RequestHeaders)]
  {
    KeysCanonical();
    var granted := map[
      AllowOrigin := [AllowedOrigin(req)],
      AllowCredentials := ["true"],
      AllowMethods := [PreflightMethods],
      MaxAge := [PreflightMaxAge]
    ];
    var requested := Get(req.header, RequestHeaders);
    Response(StatusOK, if requested != "" then Set(granted, AllowHeaders, requested) else granted, NoBody)
  }

  /** The middleware around `next`: a preflight is answered here; any other
      request gets `next`'s response with the allowed origin added and
      nothing else changed. */
  function Cors(req: Request, next: Request -> Response): (resp: Response)
    ensures Get(req.header, OriginKey) == "" ==> Get(resp.header, AllowOrigin) == "*"
    ensures Get(req.header, OriginKey) != "" ==> Get(resp.header, AllowOrigin) == Get(req.header, OriginKey)
    ensures AllowOrigin in resp.header && resp.header[AllowOrigin] == [AllowedOrigin(req)]
    ensures req.verb == MethodOptions ==> resp == Preflight(req)
    ensures req.verb != MethodOptions ==>
      && resp.status == next(req).status
      && resp.body == next(req).body
      && resp.header.Keys == next(req).header.Keys + {AllowOrigin}
      && forall k :: k in next(req).header && k != AllowOrigin ==> resp.header[k] == next(req).header[k]
  {
    KeysCanonical();
    if req.verb == MethodOptions then Preflight(req)
    else
      var inner := next(req);
      Response(inner.status, Set(inner.header, AllowOrigin, AllowedOrigin(req)), inner.body)
  }
}
