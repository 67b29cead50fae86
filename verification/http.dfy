/** The request snapshot the service reads and the response it writes. */
module Http {
  import opened Headers

  /** One inbound request; `verb` is its HTTP method. `remoteAddr` is the transport-level peer address
      exactly as the listener reported it; `tls` says whether the connection
      completed a TLS handshake. */
  datatype Request = Request(
    verb: string,
    path: string,
    rawQuery: string,
    header: Header,
    host: string,
    remoteAddr: string,
    tls: bool)

  /** The two static pages; their content is not part of this model. */
  datatype Page = IndexPage | FormsPostPage

  /** The decoded body of a response: one payload shape per route. */
  datatype Body =
    | NoBody
    | StaticPage(page: Page)
    | Generic(args: map<string, seq<string>>, headers: Header, origin: string, url: string)
    | IPOnly(origin: string)
    | UserAgentOnly(userAgent: string)
    | HeadersOnly(headers: Header)

  datatype Response = Response(status: nat, header: Header, body: Body)

  const StatusOK: nat := 200
  const StatusNotFound: nat := 404
  const StatusMethodNotAllowed: nat := 405

  const MethodGet := "GET"
  const MethodOptions := "OPTIONS"

  const UserAgentKey := "User-Agent"
  const ContentTypeKey := "Content-Type"
  const OriginKey := "Origin"

  lemma UserAgentKeyCanonical()
    ensures Canonicalize(UserAgentKey) == UserAgentKey
  {
    CanonicalizeFixesCanonical(UserAgentKey);
  }

  lemma ContentTypeKeyCanonical()
    ensures Canonicalize(ContentTypeKey) == ContentTypeKey
  {
    CanonicalizeFixesCanonical(ContentTypeKey);
  }
}
