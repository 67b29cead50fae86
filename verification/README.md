# go-httpbin request introspection, modelled in Dafny

go-httpbin is an HTTP debugging service: each endpoint echoes facts about
the inbound request (query arguments, headers, client address, user agent,
the URL the client used) back as JSON, and it emulates cross-origin (CORS)
negotiation. This project models the service's request-to-response transform
as one pure function, `App.Serve`, built from these parts:

- `Headers`: the header mapping (canonical key to an ordered value list),
  key canonicalization, and the `Get` / `Set` / `Add` operations of Go's
  `http.Header`, which the tests use both to build requests and to read
  responses.
- `Http`: the request snapshot (method, path, raw query, headers, Host,
  remote address, TLS flag) and the response (status, headers, decoded body).
  The body is one of the payload shapes: generic, IP only, user agent only,
  headers only, a static page, or none.
- `Query`: decoding of the raw query into the argument mapping.
- `Scheme`: resolution of `http`/`https` from `X-Forwarded-Proto`,
  `X-Forwarded-Protocol`, `X-Forwarded-Ssl` and the TLS flag, in that order.
- `Builders`: the four payload builders. They build the URL as
  `scheme + "://" + host + path`, with `"?" + query` appended when the query
  is not empty.
- `Router`: the fixed route table (`/`, `/forms/post`, `/get`, `/ip`,
  `/user-agent`, `/headers`, all GET-only). `Dispatch` gives 404 for an
  unknown path, 405 for another method on a known path, and otherwise 200
  with the route's payload.
- `Cors`: the middleware around the router. It sets
  `Access-Control-Allow-Origin` on every response. It answers `OPTIONS`
  itself, with the fixed grant headers and an echo of
  `Access-Control-Request-Headers`.
- `App`: `Serve = Cors ∘ Dispatch`, and the lemmas that state, for every
  request, what the test suite checks for its sample requests.

This models the behaviour the test suite `main_test.go` pins down for
`app()` and its payloads `Resp`, `IPResp`, `UserAgentResp` and `HeadersResp`.
The `App` lemmas are that suite's assertions, generalised from its sample
values to all requests. The other modules model the header, query
and routing behaviour those assertions rest on. Where the suite leaves a
choice open, the model makes these choices:

- An unknown path gives 404. No test pins this: `Router.Dispatch` and
  `App.UnknownPathNotFound` state it.
- A preflight omits `Access-Control-Allow-Headers` when nothing was
  requested. The suite only checks that a lookup of it yields `""`.
- `OPTIONS` is answered by the middleware before routing, so a preflight
  to a path outside the route table also gets the 200 preflight answer, not
  404 (`App.PreflightAnswered` has no path condition). The suite only sends
  preflights to `/get`.
- `Access-Control-Allow-Credentials` is sent only on a preflight answer.
  Other responses carry allow-origin as their only CORS header.
- The generic payload's `Origin` is the client named by a forwarding proxy
  (`X-Forwarded-For`), never the transport address. The suite's
  `TestGet__Basic` request has neither, so it cannot tell this reading from
  others.

## Model

| member | source | states |
|---|---|---|
| `Headers.Get` | main_test.go:59-70 | a lookup yields the first value stored under the key's canonical form when there is one, and `""` otherwise (key never sent, or sent with no value) |
| `Headers.Set` | main_test.go:35 | after setting a key, lookup of that key yields the value; the stored list is exactly that value; other entries and canonical keys are kept |
| `Headers.Add` | main_test.go:211-212 | adding appends the value after those already stored under the key; other entries and canonical keys are kept |
| `Headers.GetAfterAdd` | main_test.go:211-212 | a lookup after adding still yields the first value sent; it yields the added value only when the key held none |
| `App.AddTwice` | main_test.go:211-212 | adding two values under any spelling of a key whose canonical form is not yet present stores both under the canonical form, in the order added |
| `Headers.GetAfterSetOther` | main_test.go:157 | setting one header leaves lookups of a header with a different canonical key unchanged |
| `Headers.Canonicalize` | main_test.go:223 | the canonical key has the input's length, its hyphens in the same places, the same letters up to case, and no lower-case first letter |
| `Headers.CanonicalizeScan` | main_test.go:223 | canonicalization keeps the length and the hyphens, and changes only the case of letters |
| `Headers.ScanIsCaseFold` | main_test.go:223 | the character-by-character canonicalizing scan equals the closed form used for every lookup |
| `Headers.CanonicalizeIsCanonical` | main_test.go:223 | every canonicalized key is in canonical form |
| `Headers.CanonicalizeIdempotent` | main_test.go:223 | canonicalizing twice is canonicalizing once |
| `Query.ParseQuery` | main_test.go:49-51 | every decoded argument key carries at least one value |
| `Query.ParseQueryEmptyIff` | main_test.go:49-51 | the arguments are empty exactly when the query holds only separators, the empty query included |
| `Scheme.Resolve` | main_test.go:145-171 | the scheme is never empty; a non-empty `X-Forwarded-Proto` is used as the scheme, and otherwise a non-empty `X-Forwarded-Protocol` is (this precedence is the service's design order; the suite sets one signal at a time) |
| `Scheme.ResolveWithoutLiteral` | main_test.go:150-152 | without a literal protocol header the scheme is `https` exactly when `X-Forwarded-Ssl` is `on` or TLS is up, and `http` otherwise |
| `Builders.RequestURL` | main_test.go:55 | the URL is the resolved scheme and `://`, then the Host verbatim, then the path verbatim, then nothing more when the query is empty and `?` with the raw query otherwise |
| `Scheme.SoleSignalIsHttps` | main_test.go:145-171 | with no signal the scheme is `http`; setting any one forwarding header to its secure value makes it `https` |
| `Builders.GenericBody` | main_test.go:43-58 | the generic payload carries the inbound header mapping untouched, no arguments for an empty query, the request URL as `Builders.RequestURL` builds it, and as `Origin` exactly the `X-Forwarded-For` lookup, so `""` when no proxy named one |
| `Builders.GenericIgnoresRemoteAddr` | main_test.go:52-54 | the generic payload does not depend on the transport address |
| `Builders.IPBody` | main_test.go:179-187 | the IP payload's `Origin` is the transport address, verbatim |
| `Builders.UserAgentBody` | main_test.go:196-204 | the user-agent payload is the first `User-Agent` value, or `""` when the header is absent or holds no value |
| `Builders.HeadersBody` | main_test.go:216-230 | the headers payload is the inbound header mapping itself, value lists in arrival order, canonical keys kept |
| `Router.Dispatch` | main_test.go:73-81 | 404 exactly for unknown paths; 405 exactly for a known path with a method the route does not allow, with no payload; 200 with the route's payload otherwise; the router adds no header |
| `Router.RoutesAreGetOnly` | main_test.go:73-81 | every route of the table accepts GET and no other method |
| `Cors.Preflight` | main_test.go:104-143 | a preflight answer is 200 with no payload and carries exactly the grant headers (allow-headers only when requested), each holding one value: the allowed origin, `true`, the fixed method list, `3600`, and the requested headers echoed |
| `Cors.Cors` | main_test.go:83-102 | allow-origin holds exactly one value, the inbound `Origin` or else `*`; `OPTIONS` gets the preflight; any other method keeps the wrapped status, payload and headers, and only allow-origin is added |
| `App.Serve` | main_test.go:15 | the service as a whole: every response names an allowed origin, its status is 200, 404 or 405, and a preflight always gets 200 |
| `App.UnknownPathNotFound` | main_test.go:12-30 | a non-preflight request is 404 exactly when its path is outside the route table; these lines exercise two of its paths, and the 404 rule itself is the service's design, not a test |
| `App.AllowOriginOnEveryResponse` | main_test.go:83-102 | for every request, allow-origin is `*` with no inbound `Origin` and the inbound value verbatim otherwise |
| `App.PreflightAnswered` | main_test.go:104-124 | `OPTIONS` on any path gives 200 (never 405), credentials `true`, the fixed method list, max-age `3600`, and no allow-headers when none were requested |
| `App.PreflightEchoesRequestedHeaders` | main_test.go:126-143 | a preflight's allow-headers equals the inbound `Access-Control-Request-Headers` |
| `App.OnlyGetsAllowed` | main_test.go:73-81 | the status is 405 exactly when the path is routed and the method is neither GET nor OPTIONS |
| `App.GetBasic` | main_test.go:32-71 | plain `GET /get` with no query or signals gives 200, no arguments, an empty origin, URL `http://` + Host + `/get`, and the inbound header mapping itself, so `User-Agent` looks up as sent and an absent `Content-Type` as `""` |
| `App.GenericPayloadOnGet` | main_test.go:43-71 | every `GET /get` gives 200 with the generic payload, the inbound header mapping untouched, and a URL opening with the resolved scheme |
| `App.ForwardedSchemeIsHttps` | main_test.go:145-171 | any one forwarding header with its secure value on `GET /get` makes the URL start with `https://` |
| `App.IPEchoesRemoteAddr` | main_test.go:173-188 | `/ip` answers 200 with the remote address exactly as received |
| `App.UserAgentEchoed` | main_test.go:190-205 | `/user-agent` answers 200 with the first `User-Agent` value sent, or `""` when the header is absent or holds no value |
| `App.HeadersEchoed` | main_test.go:207-230 | `/headers` returns, under each inbound key's canonical form, the identical value list (same values, same order), and no other key |
| `App.HeadersKeepsRepeatedValues` | main_test.go:208-212 | the suite's header set (two set, one added twice) comes back with `Bar-Header` as `["bar1", "bar2"]` |

## Left out

- The index page and the form page (main_test.go:12-30) are routed, but their HTML content is an opaque `StaticPage` value.
- JSON encoding and decoding of payloads is not modelled. The test recorder is not modelled either. The response body is a Dafny datatype instead.
- No response headers other than the CORS ones are modelled. This includes `Content-Type`, and the text body that Go's error helper writes for 404 and 405.
- Query.ParseQuery: the split on `&` and `=` is modelled, but percent-decoding and the rejection of `;` are not. They belong to Go's `net/url` library, which is not part of this model, and only the empty-query case is pinned by a test.
- Headers.Canonicalize: Go's `http.CanonicalHeaderKey` returns a key unchanged when it holds a byte that is not valid in a header name. That case is not modelled. Requests are taken to have canonical keys (`Headers.CanonicalKeys`).
- Scheme.Resolve: the order among conflicting forwarding signals (`X-Forwarded-Proto`, then `X-Forwarded-Protocol`, then `X-Forwarded-Ssl`, then TLS) is the service's chosen priority. The suite sets one signal at a time, so no lemma claims that order as tested behaviour.
- The network listener, the TLS handshake and per-request concurrency are not modelled. TLS is a boolean input, and `Serve` is one pure call.
