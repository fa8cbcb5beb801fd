/** A client instance: its credentials, the API it talks to, and its stored silo. */
module Client {
  import opened Wrappers
  import opened Text
  import opened Params
  import opened Errors

  /** The main API host; requests are always signed against it. */
  const DOMAIN: string := "api.photobucket.com"

  /** The endpoint users are sent to for web login. */
  const LOGIN: string := "http://photobucket.com/apilogin/login"

  /** The API classes; each fixes the base path its calls are appended to. */
  datatype Api = Base | Album | GroupAlbums | Media | Search | Users

  /** The class attribute `URI`; `!` is Photobucket's identifier placeholder. */
  function Uri(api: Api): string
  {
    match api
    case Base => "/"
    case Album => "/album/!"
    case GroupAlbums => "/group/!"
    case Media => "/media/!"
    case Search => "/search/!"
    case Users => "/user/!"
  }

  /** The state of a client instance. Only `subdomain` ever changes, on a 301. */
  datatype Client = Client(
    api: Api,
    key: string,
    secret: string,
    token: Option<string>,
    tokenSecret: Option<string>,
    subdomain: string)

  /** `Base.__init__`: a missing or empty subdomain falls back to the main API host. */
  function NewClient(api: Api, key: string, secret: string, token: Option<string>, tokenSecret: Option<string>,
                     subdomain: Option<string>): (c: Client)
    ensures c.subdomain != ""
    ensures TruthyText(subdomain) ==> c.subdomain == subdomain.value
    ensures !TruthyText(subdomain) ==> c.subdomain == DOMAIN
    ensures c.api == api && c.key == key && c.secret == secret
    ensures c.token == token && c.tokenSecret == tokenSecret
  {
    Client(api, key, secret, token, tokenSecret, if TruthyText(subdomain) then subdomain.value else DOMAIN)
  }

  /** A login URL: the login endpoint and its query parameters (their encoding is not modelled). */
  datatype LoginUrl = LoginUrl(endpoint: string, query: map<string, Value>)

  /** A Python value that is either a string or `None`. */
  function AsValue(o: Option<string>): (v: Value)
    ensures v.Null? <==> o.None?
    ensures o.Some? ==> v == Str(o.value)
  {
    match o
    case None => Null
    case Some(s) => Str(s)
  }

  /**
   * `Base.get_login_url`: fails only when neither the argument nor the
   * instance holds a token; `oauth_token` is the argument when it is truthy
   * and the instance's token otherwise; `extra` is sent only when truthy.
   */
  function GetLoginUrl(c: Client, token: Option<string>, extra: Value): (r: Result<LoginUrl, Error>)
    ensures r.Err? <==> c.token.None? && token.None?
    ensures r.Err? ==> r.error == ApiError(LOGIN_TOKEN_MISSING)
    ensures r.Ok? ==> r.value.endpoint == LOGIN
    ensures r.Ok? ==> "oauth_token" in r.value.query
    ensures r.Ok? ==> ("extra" in r.value.query <==> Truthy(extra))
    ensures r.Ok? ==> forall k :: k in r.value.query ==> k == "oauth_token" || k == "extra"
    ensures r.Ok? && Truthy(extra) ==> r.value.query["extra"] == extra
    ensures r.Ok? && TruthyText(token) ==> r.value.query["oauth_token"] == Str(token.value)
    ensures r.Ok? && !TruthyText(token) ==> r.value.query["oauth_token"] == AsValue(c.token)
  {
    if c.token.None? && token.None? then Err(ApiError(LOGIN_TOKEN_MISSING))
    else
      var params := if Truthy(extra) then map["extra" := extra] else map[];
      Ok(LoginUrl(LOGIN, params["oauth_token" := if TruthyText(token) then Str(token.value) else AsValue(c.token)]))
  }

  /**
   * With the default arguments (no token, no `extra`), the URL needs the
   * instance's token and carries it as the only query parameter.
   */
  lemma LoginUrlDefaults(c: Client)
    ensures GetLoginUrl(c, None, Null).Err? <==> c.token.None?
    ensures c.token.Some? ==> GetLoginUrl(c, None, Null) == Ok(LoginUrl(LOGIN, map["oauth_token" := Str(c.token.value)]))
  {
  }

  /**
   * An empty token argument passes the `None` check, and when the instance has
   * no token either, the URL carries `oauth_token=None`.
   */
  lemma LoginUrlWithEmptyToken(c: Client)
    requires c.token.None?
    ensures GetLoginUrl(c, Some(""), Null).Ok?
    ensures GetLoginUrl(c, Some(""), Null).value.query == map["oauth_token" := Null]
  {
  }
}
