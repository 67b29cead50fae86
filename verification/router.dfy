/** The fixed route table and the dispatch through it: exact path match,
    then the route's method check, then the route's payload builder. */
module Router {
  import opened Http
  import Builders

  datatype Route = Index | FormsPost | GetRoute | IPRoute | UserAgentRoute | HeadersRoute

  /** Built once, never changed: every path the service answers. */
  const Routes: map<string, Route> := map[
    "/" := Index,
    "/forms/post" := FormsPost,
    "/get" := GetRoute,
    "/ip" := IPRoute,
    "/user-agent" := UserAgentRoute,
    "/headers" := HeadersRoute
  ]

  /** The one method each route accepts. Every route of the table is
      GET-only, so this is GET whatever the route; the parameter keeps the
      method check written per route, as the table declares it. */
  function AllowedMethod(route: Route): string
  {
    MethodGet
  }

  function Handle(route: Route, req: Request): Body
  {
    match route
    case Index => StaticPage(IndexPage)
    case FormsPost => StaticPage(FormsPostPage)
    case GetRoute => Builders.GenericBody(req)
    case IPRoute => Builders.IPBody(req)
    case UserAgentRoute => Builders.UserAgentBody(req)
    case HeadersRoute => Builders.HeadersBody(req)
  }

  /** Unknown path: 404. Known path, other method: 405 and no payload.
      Otherwise 200 with the route's payload. The router sets no header. */
  function Dispatch(req: Request): (resp: Response)
    ensures resp.header == map[]
    ensures resp.status == StatusOK || resp.status == StatusNotFound || resp.status == StatusMethodNotAllowed
    ensures resp.status == StatusNotFound <==> req.path !in Routes
    ensures resp.status == StatusMethodNotAllowed
        <==> req.path in Routes && req.verb != AllowedMethod(Routes[req.path])
    ensures resp.status != StatusOK ==> resp.body == NoBody
    ensures resp.status == StatusOK ==> resp.body == Handle(Routes[req.path], req)
  {
    if req.path !in Routes then Response(StatusNotFound, map[], NoBody)
    else
      var route := Routes[req.path];
      if req.verb != AllowedMethod(route) then Response(StatusMethodNotAllowed, map[], NoBody)
      else Response(StatusOK, map[], Handle(route, req))
  }

  /** Every route of the table accepts GET and nothing else. */
  lemma RoutesAreGetOnly(path: string, verb: string)
    requires path in Routes
    ensures verb == AllowedMethod(Routes[path]) <==> verb == MethodGet
  {
  }
}
