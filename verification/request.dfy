/**
 * Building a request in `make_request`, up to the point where it is handed to
 * the HTTP library: parameters, token, path, target host and signing URL.
 */
module Request {
  import opened Wrappers
  import opened Text
  import opened Params
  import opened Errors
  import opened Auth
  import opened Client

  /** The arguments of one `make_request` call. */
  datatype Call = Call(
    url: string,
    baseUri: Option<string>,
    params: ParamMap,
    auth: int,
    verb: string,
    silo: bool,
    body: string,
    extraHeaders: map<string, string>)

  /**
   * A call with `make_request`'s defaults for everything but `url`: no
   * `base_uri` or params, `REQUIRED` auth, `GET`, no silo, an empty body and
   * no extra headers.
   */
  function DefaultCall(url: string): (call: Call)
    ensures call.url == url && call.baseUri.None? && call.params == map[]
    ensures call.auth == REQUIRED && call.verb == "GET" && !call.silo
    ensures call.body == "" && call.extraHeaders == map[]
  {
    Call(url, None, map[], REQUIRED, "GET", false, "", map[])
  }

  datatype Consumer = Consumer(key: string, secret: string)

  /** What is handed to OAuth signing and then to the HTTP library. */
  datatype Request = Request(
    consumer: Consumer,
    token: Option<TokenPair>,
    verb: string,
    target: string,
    allowRedirects: bool,
    signingUrl: string,
    params: ParamMap,
    headers: map<string, string>,
    body: string)

  const USER_AGENT: string := "python-photobucket/0.2 (Language=Python)"
  const FORM_CONTENT_TYPE: string := "application/x-www-form-urlencoded"

  function DefaultHeaders(): map<string, string>
  {
    map["User-Agent" := USER_AGENT, "Content-type" := FORM_CONTENT_TYPE]
  }

  /** The default headers updated with the caller's: a caller's header wins over a default one. */
  function Headers(extra: map<string, string>): (h: map<string, string>)
    ensures h.Keys == DefaultHeaders().Keys + extra.Keys
    ensures forall k :: k in extra ==> h[k] == extra[k]
    ensures forall k :: k in DefaultHeaders() && k !in extra ==> h[k] == DefaultHeaders()[k]
  {
    DefaultHeaders() + extra
  }

  /**
   * The request path: `url` appended to the per-call `base_uri` when that is
   * truthy, and to the class `URI` otherwise.
   */
  function RequestPath(baseUri: Option<string>, classUri: string, url: string): (p: string)
    ensures |p| >= |url| && p[|p| - |url|..] == url
    ensures TruthyText(baseUri) ==> p[..|p| - |url|] == baseUri.value
    ensures !TruthyText(baseUri) ==> p[..|p| - |url|] == classUri
  {
    var base := if TruthyText(baseUri) then baseUri.value else classUri;
    assert (base + url)[|base|..] == url;
    base + url
  }

  /**
   * A truthy `base_uri` makes the path the same for every API class, which
   * is how the essential calls reach `/ping` from any API; a falsy one
   * (missing or empty) falls back to the class `URI`.
   */
  lemma BaseUriOverridesClassUri(api1: Api, api2: Api, base: string, url: string)
    requires base != ""
    ensures RequestPath(Some(base), Uri(api1), url) == RequestPath(Some(base), Uri(api2), url)
    ensures RequestPath(Some(Uri(Base)), Uri(Album), "ping") == "/ping"
    ensures RequestPath(Some(""), Uri(api1), url) == RequestPath(None, Uri(api1), url) == Uri(api1) + url
  {
  }

  /** `http://` followed by a host and a path. */
  function HttpUrl(host: string, path: string): string
  {
    "http://" + host + path
  }

  /**
   * Everything `make_request` does before dispatch. Fails only on the auth
   * check. A silo call targets the stored subdomain with redirects off; any
   * other call targets the main host with redirects on. The signing URL is
   * the main host's URL in both cases.
   */
  function BuildRequest(c: Client, call: Call): (r: Result<Request, Error>)
    ensures r.Err? <==> call.auth == REQUIRED && !TokenValid(c.token, c.tokenSecret)
    ensures r.Err? ==> r.error == ApiError(TOKEN_REQUIRED)
    ensures r.Ok? ==> r.value.params == Prepare(call.params)
    ensures r.Ok? ==> r.value.signingUrl == HttpUrl(DOMAIN, RequestPath(call.baseUri, Uri(c.api), call.url))
    ensures r.Ok? && call.silo ==>
      r.value.target == HttpUrl(c.subdomain, RequestPath(call.baseUri, Uri(c.api), call.url)) && !r.value.allowRedirects
    ensures r.Ok? && !call.silo ==> r.value.target == r.value.signingUrl && r.value.allowRedirects
    ensures r.Ok? ==> (r.value.token.Some? <==> (call.auth == REQUIRED || call.auth == OPTIONAL) && TokenValid(c.token, c.tokenSecret))
    ensures r.Ok? && r.value.token.Some? ==> r.value.token.value == TokenPair(c.token.value, c.tokenSecret.value)
    ensures r.Ok? ==> r.value.consumer == Consumer(c.key, c.secret) && r.value.verb == call.verb
    ensures r.Ok? ==> r.value.headers == Headers(call.extraHeaders) && r.value.body == call.body
  {
    var params := Prepare(call.params);
    match ResolveToken(call.auth, c.token, c.tokenSecret)
    case Err(e) => Err(e)
    case Ok(token) =>
      var path := RequestPath(call.baseUri, Uri(c.api), call.url);
      var target := if call.silo then HttpUrl(c.subdomain, path) else HttpUrl(DOMAIN, path);
      Ok(Request(Consumer(c.key, c.secret), token, call.verb, target, !call.silo,
                 HttpUrl(DOMAIN, path), params, Headers(call.extraHeaders), call.body))
  }

  /**
   * What gets signed does not depend on where the request goes: two calls
   * that differ only in `silo`, on clients that differ only in their stored
   * subdomain, are signed over the same URL, parameters, method and token.
   */
  lemma SigningIndependentOfHost(c1: Client, c2: Client, call1: Call, call2: Call)
    requires c2 == c1.(subdomain := c2.subdomain)
    requires call2 == call1.(silo := call2.silo)
    ensures BuildRequest(c1, call1).Ok? <==> BuildRequest(c2, call2).Ok?
    ensures BuildRequest(c1, call1).Ok? ==>
      var r1, r2 := BuildRequest(c1, call1).value, BuildRequest(c2, call2).value;
      r1.signingUrl == r2.signingUrl && r1.params == r2.params && r1.verb == r2.verb &&
      r1.token == r2.token && r1.consumer == r2.consumer
  {
  }

  /** Only the prepared form of the parameters matters to the request that is built. */
  lemma BuildDependsOnPreparedParams(c: Client, call1: Call, call2: Call)
    requires call2 == call1.(params := call2.params)
    requires Prepare(call1.params) == Prepare(call2.params)
    ensures BuildRequest(c, call1) == BuildRequest(c, call2)
  {
  }
}
