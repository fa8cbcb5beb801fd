/**
 * Dispatching a built request and classifying what comes back, including the
 * 301 "silo" redirect that stores a new subdomain and re-issues the call.
 */
module Dispatch {
  import opened Wrappers
  import opened Text
  import opened Params
  import opened Transport
  import opened Errors
  import opened Client
  import opened Request

  /** Status of the permanent redirect that tells a client its silo. */
  const REDIRECT: int := 301

  /** The HTTP verbs the HTTP library offers as module-level functions. */
  datatype Method = Get | Post | Put | Delete | Head | Options | Patch

  /** The name of the HTTP library's function for a verb. */
  function MethodName(m: Method): string
  {
    match m
    case Get => "get"
    case Post => "post"
    case Put => "put"
    case Delete => "delete"
    case Head => "head"
    case Options => "options"
    case Patch => "patch"
  }

  /** The lookup `getattr(requests, method.lower())`: a verb whose name matches case-insensitively, or none. */
  function ParseMethod(s: string): (r: Option<Method>)
    ensures r.Some? ==> MethodName(r.value) == Lower(s)
    ensures r.None? ==> forall m :: MethodName(m) != Lower(s)
  {
    var l := Lower(s);
    if l == "get" then Some(Get)
    else if l == "post" then Some(Post)
    else if l == "put" then Some(Put)
    else if l == "delete" then Some(Delete)
    else if l == "head" then Some(Head)
    else if l == "options" then Some(Options)
    else if l == "patch" then Some(Patch)
    else None
  }

  /** Every verb is found under its own name, in either case. */
  lemma ParseMethodName(m: Method)
    ensures ParseMethod(MethodName(m)) == Some(m)
    ensures ParseMethod(Upper(MethodName(m))) == Some(m)
  {
    var n := MethodName(m);
    assert Lower(n) == n;
    assert Lower(Upper(n)) == n;
  }

  /**
   * `url.split('//')[1]`: the piece between the first `//` and the next one
   * (or the end). Fails, as the indexing does, when there is no `//`.
   */
  function SubdomainFromUrl(u: string): (r: Option<string>)
    ensures r.None? <==> !Contains(u, "//")
    ensures r.Some? ==> !Contains(r.value, "//")
  {
    var pieces := Split(u, "//");
    if |pieces| >= 2 then Some(pieces[1]) else None
  }

  /**
   * The subdomain is the text after the first `//`, cut at the next `//`
   * when there is one: Python's answer even where slashes run together, as
   * in `http:///h`, whose subdomain is `/h`.
   */
  lemma SubdomainIsSecondPiece(u: string)
    requires Contains(u, "//")
    ensures var i := FindFirst(u, "//").value;
      var rest := u[i + 2..];
      && (FindFirst(rest, "//").None? ==> SubdomainFromUrl(u) == Some(rest))
      && (FindFirst(rest, "//").Some? ==> SubdomainFromUrl(u) == Some(rest[..FindFirst(rest, "//").value]))
  {
    var i := FindFirst(u, "//").value;
    SplitAtFirst(u, "//", i);
    assert Split(u, "//")[1] == Split(u[i + 2..], "//")[0];
  }

  /** A `scheme://host` URL yields its host, when the scheme has no `/` and the host no `//`. */
  lemma SubdomainOfSchemeAndHost(scheme: string, host: string)
    requires forall i :: 0 <= i < |scheme| ==> scheme[i] != '/'
    requires !Contains(host, "//")
    ensures SubdomainFromUrl(scheme + "//" + host) == Some(host)
  {
    var u := scheme + "//" + host;
    assert OccursAt(u, "//", |scheme|) by {
      assert u[|scheme|..|scheme| + 2] == "//";
    }
    forall j: nat | j < |scheme|
      ensures !OccursAt(u, "//", j)
    {
      assert u[j] == scheme[j];
    }
    assert FindFirst(u, "//") == Some(|scheme|);
    assert u[..|scheme|] == scheme;
    assert u[|scheme| + 2..] == host;
    assert Split(u, "//") == [scheme] + Split(host, "//");
  }

  /** The string at `content.subdomain` of a decoded body, when the body has one there. */
  function SubdomainField(body: Option<Json>): Option<string>
  {
    match body
    case Some(JObject(top)) =>
      if "content" in top && top["content"].JObject? && "subdomain" in top["content"].fields
         && top["content"].fields["subdomain"].JString?
      then Some(top["content"].fields["subdomain"].s)
      else None
    case _ => None
  }

  /**
   * The new subdomain carried by a 301: `content.subdomain.split('//')[1]`.
   * The body is decoded only when the prepared `format` is `json` (otherwise
   * the raw text cannot be indexed), must hold a string at
   * `content.subdomain`, and that string must contain `//`.
   */
  function RedirectHost(resp: Response, params: ParamMap): (r: Option<string>)
    ensures r.Some? <==>
      && FORMAT in params && params[FORMAT] == DEFAULT_FORMAT
      && SubdomainField(resp.json).Some?
      && Contains(SubdomainField(resp.json).value, "//")
    ensures r.Some? ==> r == SubdomainFromUrl(SubdomainField(resp.json).value)
  {
    if FORMAT !in params || params[FORMAT] != DEFAULT_FORMAT then None
    else match SubdomainField(resp.json)
      case None => None
      case Some(u) => SubdomainFromUrl(u)
  }

  /** Slashes that run together: `http:///h` names the subdomain `/h`, not `h` or the empty string. */
  lemma SubdomainOfTripleSlash()
    ensures SubdomainFromUrl("http:///h") == Some("/h")
  {
    assert "http:///h" == "http:" + "//" + "/h";
    forall j: nat
      ensures !OccursAt("/h", "//", j)
    {
      if j == 0 {
        assert "/h"[0..2][1] == 'h';
      }
    }
    SubdomainOfSchemeAndHost("http:", "/h");
  }

  /** A string without any `/` has no `//` in it. */
  lemma NoSlashNoSeparator(s: string)
    requires forall i :: 0 <= i < |s| ==> s[i] != '/'
    ensures !Contains(s, "//")
  {
    forall j: nat | j + 2 <= |s|
      ensures !OccursAt(s, "//", j)
    {
      assert s[j..j + 2][0] == s[j];
    }
  }

  /**
   * Any 301 body whose `content.subdomain` is `scheme://host`, whatever its
   * other fields, status or raw text, names `host` as the new subdomain.
   */
  lemma RedirectBodyHost(status: int, content: string, top: map<string, Json>, inner: map<string, Json>,
                         scheme: string, host: string, params: ParamMap)
    requires forall i :: 0 <= i < |scheme| ==> scheme[i] != '/'
    requires !Contains(host, "//")
    requires FORMAT in params && params[FORMAT] == DEFAULT_FORMAT
    ensures RedirectHost(
      Response(status, content, Some(JObject(top["content" := JObject(inner["subdomain" := JString(scheme + "//" + host)])]))),
      params) == Some(host)
  {
    var u := scheme + "//" + host;
    var body := JObject(top["content" := JObject(inner["subdomain" := JString(u)])]);
    assert SubdomainField(Some(body)) == Some(u);
    SubdomainOfSchemeAndHost(scheme, host);
    assert SubdomainFromUrl(u) == Some(host);
  }

  /** The body of a 301 that names silo `s123.host.com`. */
  lemma RedirectBodyExample(status: int, content: string)
    ensures RedirectHost(
      Response(status, content, Some(JObject(map["content" := JObject(map["subdomain" := JString("http://s123.host.com")])]))),
      map[FORMAT := DEFAULT_FORMAT]) == Some("s123.host.com")
  {
    var host := "s123.host.com";
    var scheme := "http:";
    assert "http://s123.host.com" == scheme + "//" + host;
    assert forall i :: 0 <= i < |host| ==> host[i] != '/';
    assert forall i :: 0 <= i < |scheme| ==> scheme[i] != '/';
    NoSlashNoSeparator(host);
    RedirectBodyHost(status, content, map[], map[], scheme, host, map[FORMAT := DEFAULT_FORMAT]);
  }

  /** One run of `make_request`: the client state after it, the requests dispatched, and the result. */
  datatype Run = Run(client: Client, sent: seq<Request>, result: Result<Response, Error>)

  /**
   * Every dispatched request hands signing what the first one built did: the
   * signing URL, parameters, verb, consumer, token and body.
   */
  ghost predicate SameSigning(sent: seq<Request>, first: Request)
  {
    forall k :: 0 <= k < |sent| ==>
      sent[k].signingUrl == first.signingUrl && sent[k].params == first.params &&
      sent[k].verb == first.verb && sent[k].consumer == first.consumer &&
      sent[k].token == first.token && sent[k].body == first.body
  }

  /**
   * `make_request` against a transport whose successive replies are
   * `replies`. Auth and verb errors end the call before anything is sent. A
   * 301 stores the new subdomain and re-issues the call with the prepared
   * parameters; any other HTTP error is wrapped with its response.
   */
  function Execute(c: Client, call: Call, replies: seq<Outcome>): (r: Run)
    ensures r.client == c.(subdomain := r.client.subdomain)
    ensures BuildRequest(c, call).Err? ==> r == Run(c, [], Err(BuildRequest(c, call).error))
    ensures BuildRequest(c, call).Ok? && ParseMethod(call.verb).None? ==> r == Run(c, [], Err(ApiError(INVALID_METHOD)))
    ensures |r.sent| <= |replies| + 1
    ensures |r.sent| > 0 ==> BuildRequest(c, call).Ok? && SameSigning(r.sent, BuildRequest(c, call).value)
    ensures forall k :: 0 <= k < |r.sent| - 1 ==> replies[k].Raised? && replies[k].response.status == REDIRECT
    decreases |replies|
  {
    match BuildRequest(c, call)
    case Err(e) => Run(c, [], Err(e))
    case Ok(req) =>
      if ParseMethod(req.verb).None? then Run(c, [], Err(ApiError(INVALID_METHOD)))
      else if |replies| == 0 then Run(c, [req], Err(NoResponse))
      else match replies[0]
        case Delivered(resp) => Run(c, [req], Ok(resp))
        case Raised(resp) =>
          if resp.status != REDIRECT then Run(c, [req], Err(RequestError(resp)))
          else match RedirectHost(resp, req.params)
            case None => Run(c, [req], Err(MalformedRedirect))
            case Some(host) =>
              var retry := call.(params := req.params);
              var next := Execute(c.(subdomain := host), retry, replies[1..]);
              RetryKeepsSigning(c, call, host, next.sent);
              RedirectsBeforeRetry(replies, req, next.sent);
              Run(next.client, [req] + next.sent, next.result)
  }

  /**
   * The re-issued call is signed as the first one was: its prepared
   * parameters prepare to themselves, and nothing else it signs depends on
   * the subdomain.
   */
  lemma RetryKeepsSigning(c: Client, call: Call, host: string, sent: seq<Request>)
    requires BuildRequest(c, call).Ok? && FORMAT in BuildRequest(c, call).value.params
    requires var retry := call.(params := BuildRequest(c, call).value.params);
      |sent| > 0 ==>
        BuildRequest(c.(subdomain := host), retry).Ok? &&
        SameSigning(sent, BuildRequest(c.(subdomain := host), retry).value)
    ensures SameSigning([BuildRequest(c, call).value] + sent, BuildRequest(c, call).value)
  {
    var req := BuildRequest(c, call).value;
    var all := [req] + sent;
    if |sent| > 0 {
      PrepareIdempotent(call.params);
      var again := BuildRequest(c.(subdomain := host), call.(params := req.params)).value;
      assert again.params == req.params;
      forall k | 1 <= k < |all|
        ensures all[k].signingUrl == req.signingUrl && all[k].params == req.params &&
          all[k].verb == req.verb && all[k].consumer == req.consumer &&
          all[k].token == req.token && all[k].body == req.body
      {
        assert all[k] == sent[k - 1];
      }
    }
  }

  /** Prefixing the request a 301 answered keeps every reply but the last one a 301. */
  lemma RedirectsBeforeRetry(replies: seq<Outcome>, req: Request, sent: seq<Request>)
    requires |replies| > 0 && replies[0].Raised? && replies[0].response.status == REDIRECT
    requires |sent| <= |replies|
    requires forall k :: 0 <= k < |sent| - 1 ==> replies[1..][k].Raised? && replies[1..][k].response.status == REDIRECT
    ensures forall k :: 0 <= k < |[req] + sent| - 1 ==> replies[k].Raised? && replies[k].response.status == REDIRECT
  {
    forall k | 1 <= k < |[req] + sent| - 1
      ensures replies[k].Raised? && replies[k].response.status == REDIRECT
    {
      assert replies[k] == replies[1..][k - 1];
    }
  }

  /**
   * A normal result, or a wrapped HTTP error, is the reply to the last
   * request sent; a wrapped HTTP error is never a 301.
   */
  ghost predicate Traced(r: Run, replies: seq<Outcome>)
  {
    && (r.result.Ok? ==> 1 <= |r.sent| <= |replies| && replies[|r.sent| - 1] == Delivered(r.result.value))
    && (r.result.Err? && r.result.error.RequestError? ==>
          1 <= |r.sent| <= |replies| && replies[|r.sent| - 1] == Raised(r.result.error.response) &&
          r.result.error.response.status != REDIRECT)
  }

  /** What a call returns is always traced to the reply of the last request it sent. */
  lemma {:induction false} ExecuteResultProvenance(c: Client, call: Call, replies: seq<Outcome>)
    ensures Traced(Execute(c, call, replies), replies)
    decreases |replies|
  {
    if BuildRequest(c, call).Ok? && ParseMethod(call.verb).Some? && |replies| > 0 {
      var req := BuildRequest(c, call).value;
      var host := RedirectHost(replies[0].response, req.params);
      if replies[0].Raised? && replies[0].response.status == REDIRECT && host.Some? {
        var retry := call.(params := req.params);
        var next := Execute(c.(subdomain := host.value), retry, replies[1..]);
        RetryShape(c, call, replies, host.value);
        ExecuteResultProvenance(c.(subdomain := host.value), retry, replies[1..]);
        ProvenanceStep(replies, req, next);
      } else {
        ClassifyFirstReply(c, call, replies);
      }
    }
  }

  /** One redirect step of `ExecuteResultProvenance`: prefixing a request shifts the reply index by one. */
  lemma ProvenanceStep(replies: seq<Outcome>, req: Request, next: Run)
    requires |replies| > 0 && Traced(next, replies[1..])
    ensures Traced(Run(next.client, [req] + next.sent, next.result), replies)
  {
  }

  /** A usable 301 continues as the call with its prepared parameters, on the client with the new subdomain. */
  lemma RetryShape(c: Client, call: Call, replies: seq<Outcome>, host: string)
    requires BuildRequest(c, call).Ok? && ParseMethod(call.verb).Some?
    requires |replies| > 0 && replies[0].Raised? && replies[0].response.status == REDIRECT
    requires RedirectHost(replies[0].response, BuildRequest(c, call).value.params) == Some(host)
    ensures var req := BuildRequest(c, call).value;
      var next := Execute(c.(subdomain := host), call.(params := req.params), replies[1..]);
      Execute(c, call, replies) == Run(next.client, [req] + next.sent, next.result)
  {
  }

  /** Two calls whose parameters prepare to the same map run identically. */
  lemma {:induction false} ExecuteDependsOnPreparedParams(c: Client, call1: Call, call2: Call, replies: seq<Outcome>)
    requires call2 == call1.(params := call2.params)
    requires Prepare(call1.params) == Prepare(call2.params)
    ensures Execute(c, call1, replies) == Execute(c, call2, replies)
    decreases |replies|
  {
    BuildDependsOnPreparedParams(c, call1, call2);
  }

  /**
   * How the first reply is classified: a normal reply ends the call with it,
   * an HTTP error other than 301 ends it with that error, and a 301 without
   * a usable subdomain ends it with a redirect failure. Each sends one request.
   */
  lemma ClassifyFirstReply(c: Client, call: Call, replies: seq<Outcome>)
    requires BuildRequest(c, call).Ok? && ParseMethod(call.verb).Some?
    requires |replies| > 0
    ensures var req := BuildRequest(c, call).value;
      && (replies[0].Delivered? ==> Execute(c, call, replies) == Run(c, [req], Ok(replies[0].response)))
      && (replies[0].Raised? && replies[0].response.status != REDIRECT ==>
            Execute(c, call, replies) == Run(c, [req], Err(RequestError(replies[0].response))))
      && (replies[0].Raised? && replies[0].response.status == REDIRECT && RedirectHost(replies[0].response, req.params).None? ==>
            Execute(c, call, replies) == Run(c, [req], Err(MalformedRedirect)))
  {
  }

  /**
   * A 301 with a usable subdomain stores it and re-issues the ORIGINAL call:
   * passing the prepared parameters back in changes nothing.
   */
  lemma RedirectReissuesCall(c: Client, call: Call, replies: seq<Outcome>, host: string)
    requires BuildRequest(c, call).Ok? && ParseMethod(call.verb).Some?
    requires |replies| > 0 && replies[0].Raised? && replies[0].response.status == REDIRECT
    requires RedirectHost(replies[0].response, BuildRequest(c, call).value.params) == Some(host)
    ensures var next := Execute(c.(subdomain := host), call, replies[1..]);
      Execute(c, call, replies) == Run(next.client, [BuildRequest(c, call).value] + next.sent, next.result)
  {
    var req := BuildRequest(c, call).value;
    PrepareIdempotent(call.params);
    ExecuteDependsOnPreparedParams(c.(subdomain := host), call.(params := req.params), call, replies[1..]);
  }

  /** On a silo call, the re-issued request goes to the subdomain named by the 301, with redirects still off. */
  lemma RetryTargetsNewSilo(c: Client, call: Call, replies: seq<Outcome>, host: string)
    requires call.silo
    requires BuildRequest(c, call).Ok? && ParseMethod(call.verb).Some?
    requires |replies| > 0 && replies[0].Raised? && replies[0].response.status == REDIRECT
    requires RedirectHost(replies[0].response, BuildRequest(c, call).value.params) == Some(host)
    ensures var r := Execute(c, call, replies);
      |r.sent| >= 2 &&
      r.sent[1].target == HttpUrl(host, RequestPath(call.baseUri, Uri(c.api), call.url)) &&
      !r.sent[1].allowRedirects
  {
    var next := Execute(c.(subdomain := host), call, replies[1..]);
    RedirectReissuesCall(c, call, replies, host);
    ExecuteSendsBuiltRequest(c.(subdomain := host), call, replies[1..]);
    assert Execute(c, call, replies).sent[1] == next.sent[0];
  }

  /**
   * On a call without `silo`, the stored subdomain is not used, so the
   * re-issued request is exactly the one that drew the 301.
   */
  lemma RetryWithoutSiloRepeatsRequest(c: Client, call: Call, replies: seq<Outcome>, host: string)
    requires !call.silo
    requires BuildRequest(c, call).Ok? && ParseMethod(call.verb).Some?
    requires |replies| > 0 && replies[0].Raised? && replies[0].response.status == REDIRECT
    requires RedirectHost(replies[0].response, BuildRequest(c, call).value.params) == Some(host)
    ensures var r := Execute(c, call, replies);
      |r.sent| >= 2 && r.sent[1] == r.sent[0]
  {
    var next := Execute(c.(subdomain := host), call, replies[1..]);
    RedirectReissuesCall(c, call, replies, host);
    ExecuteSendsBuiltRequest(c.(subdomain := host), call, replies[1..]);
    assert Execute(c, call, replies).sent[1] == next.sent[0];
    assert next.sent[0] == BuildRequest(c, call).value;
  }

  /** A call that builds and names a known method sends, first, exactly the request it built. */
  lemma ExecuteSendsBuiltRequest(c: Client, call: Call, replies: seq<Outcome>)
    requires BuildRequest(c, call).Ok? && ParseMethod(call.verb).Some?
    ensures var r := Execute(c, call, replies);
      |r.sent| >= 1 && r.sent[0] == BuildRequest(c, call).value
  {
  }
}
