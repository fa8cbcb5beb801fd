# Photobucket client: request preparation and silo redirects

A Dafny model of the request-building core of the Photobucket REST API
client (`photobucket/__init__.py`): everything `Base.make_request` does
before and around the network call, the client constructor's subdomain
default, and `Base.get_login_url`.

- `Params` cleans request parameters: `format` defaults to `json`, a list
  `id` is joined with `%2F` (`clean_identifier`), and `None` values are
  dropped (`remove_empty`).
- `Auth` decides from the auth mode (`NOT_REQUIRED`, `REQUIRED`,
  `OPTIONAL`) whether a missing token pair is an error, is tolerated, or is
  never looked at.
- `Request` builds what is handed to OAuth signing and the HTTP library.
  The path is the per-call `base_uri` (when truthy) or the class `URI`,
  followed by `url`. The target host is the stored subdomain for a silo call,
  with redirects off, and the main API host otherwise, with redirects on. The
  URL that is signed is always the main host's.
- `Dispatch` resolves the verb, reads the reply and handles a 301. On a 301
  it stores the host found in the body's `content.subdomain` and re-issues
  the call with the prepared parameters. Any other HTTP error is wrapped
  with its response.
- `Text` gives Python's `str.split` and `str.join`. It proves that splitting
  a join returns the pieces when the separator cannot overlap itself.
- `Client` holds the instance state, the constructor and the login URL.

The HTTP transport is a scripted sequence of outcomes, one per dispatched
request. `Execute` consumes that sequence, so every run terminates. The
source's recursion on repeated 301s is not bounded. The model does not
claim a single retry. It proves that every request after the first was
caused by a 301. It also proves that each re-issued request hands signing the
same URL, parameters, verb, consumer, token and body as the first one.

## Model

| member | source | states |
|---|---|---|
| Params.RemoveEmpty | photobucket/__init__.py:362-371 | the result keeps exactly the keys whose value is not `None`, with their values unchanged; no key is added |
| Params.RemoveEmptyFixpoint | photobucket/__init__.py:362-371 | removing `None`s leaves a map unchanged exactly when it holds no `None`, so a second pass is a no-op |
| Params.CleanIdentifier | photobucket/__init__.py:190-198 | a list identifier becomes the string `'%2F'.join` of its segments (the empty string for an empty list), which splits on `%2F` back into the segments when none contains `%2F`; anything else is returned unchanged; the result is never a list |
| Params.CleanTwoSegments | photobucket/__init__.py:195-196 | `["a", "b"]` becomes `a%2Fb` |
| Params.CleanNoSegments | photobucket/__init__.py:195-196 | the empty list becomes the empty string |
| Params.CleanSegmentWithSeparator | photobucket/__init__.py:195-196 | a segment already holding `%2F` is joined as is: `["a%2F", "b"]` becomes `a%2F%2Fb` |
| Params.CleanIdentifierIdempotent | photobucket/__init__.py:190-198 | cleaning an already cleaned identifier changes nothing |
| Params.Prepare | photobucket/__init__.py:125-134 | the prepared map has no `None`; `format` is `json` when absent, the caller's value when not `None`, and missing when the caller passed `None`; `id` is present iff it was given and not `None`, and then is cleaned; every other key is kept iff its value is not `None`, unchanged |
| Params.PrepareIdempotent | photobucket/__init__.py:125-134 | preparing prepared parameters again yields the same map if and only if the caller did not pass `format=None` |
| Auth.ResolveToken | photobucket/__init__.py:137-146 | `REQUIRED` without both token halves is a `PhotobucketAPIError`; a token is built iff the mode is `REQUIRED` or `OPTIONAL` and both halves are set, and it is the instance's token and secret; `OPTIONAL` tolerates a missing pair; `NOT_REQUIRED` never builds a token |
| Client.NewClient | photobucket/__init__.py:59-75 | the stored subdomain is the given one when it is truthy and the main API host otherwise, so it is never empty; credentials are stored as given |
| Client.GetLoginUrl | photobucket/__init__.py:95-106 | fails iff neither the argument nor the instance holds a token; the URL is the login endpoint; `oauth_token` is the argument when truthy and the instance's token otherwise; `extra` is present iff truthy; no other key appears |
| Client.LoginUrlDefaults | photobucket/__init__.py:95-106 | with the default arguments the call fails iff the instance has no token, and otherwise the query is exactly `oauth_token` set to the instance's token |
| Client.LoginUrlWithEmptyToken | photobucket/__init__.py:100-105 | an empty token argument passes the `None` check and, with no instance token, the query carries `oauth_token=None` |
| Request.DefaultCall | photobucket/__init__.py:108-128 | a call left at the defaults has no `base_uri` or params, `REQUIRED` auth, verb `GET`, no silo, an empty body and no extra headers |
| Request.RequestPath | photobucket/__init__.py:148-149 | the path ends with `url`, and what precedes it is `base_uri` when truthy and the class `URI` otherwise |
| Request.BaseUriOverridesClassUri | photobucket/__init__.py:80-84 | a truthy `base_uri` makes the path the same for every API class (`Base.URI` + `ping` is `/ping` from `Album`); an empty one falls back to the class `URI` like a missing one |
| Request.Headers | photobucket/__init__.py:127-128 | the headers are the defaults updated with the caller's: every caller header wins, every other default is kept |
| Request.BuildRequest | photobucket/__init__.py:125-165 | building fails only on the `REQUIRED` auth check; the parameters are the prepared ones; the token, when present, is the instance's token and secret; a silo call targets `http://subdomain+path` with redirects off, otherwise `http://DOMAIN+path` with redirects on; the signing URL is `http://DOMAIN+path` either way |
| Request.SigningIndependentOfHost | photobucket/__init__.py:148-165 | calls differing only in `silo`, on clients differing only in their subdomain, are signed over the same URL, parameters, verb, token and consumer |
| Request.BuildDependsOnPreparedParams | photobucket/__init__.py:125-134 | two calls whose parameters prepare to the same map build the same request |
| Dispatch.ParseMethod | photobucket/__init__.py:169-172 | a verb is found iff its lower-cased name is one of the HTTP library's verb functions; otherwise the call fails with `Invalid Http method` |
| Dispatch.ParseMethodName | photobucket/__init__.py:169 | every verb is found under its own name, lower- or upper-case |
| Text.Join | photobucket/__init__.py:196 | `str.join`: empty for no pieces; otherwise it starts with the first piece and ends with the last |
| Text.JoinLength | photobucket/__init__.py:196 | a join is as long as its pieces plus one separator between each neighbouring pair |
| Text.Split | photobucket/__init__.py:183 | `str.split`: at least one piece; joining the pieces with the separator gives the input back; no piece contains the separator; there is a single piece (the input) iff the separator does not occur; otherwise the first piece ends at the leftmost occurrence |
| Text.SplitLeftmost | photobucket/__init__.py:183 | every boundary between pieces is the leftmost occurrence of the separator in the text that remains, so the pieces are Python's even for the self-overlapping `//` |
| Text.SplitJoin | photobucket/__init__.py:196 | splitting `sep.join(xs)` on `sep` gives `xs` back when `sep` cannot overlap itself and no piece contains it |
| Dispatch.SubdomainFromUrl | photobucket/__init__.py:183 | `split('//')[1]` is defined iff the URL contains `//`, and the piece it returns contains no `//` |
| Dispatch.SubdomainIsSecondPiece | photobucket/__init__.py:183 | the subdomain is the text after the first `//`, cut at the next `//` when there is one |
| Dispatch.SubdomainOfTripleSlash | photobucket/__init__.py:183 | `http:///h` names the subdomain `/h` |
| Dispatch.SubdomainOfSchemeAndHost | photobucket/__init__.py:183 | for `scheme://host` with no `/` in the scheme and no `//` in the host, the new subdomain is exactly the host |
| Dispatch.RedirectHost | photobucket/__init__.py:178-183 | a 301 yields a subdomain iff the prepared `format` is `json`, the decoded body holds a string at `content.subdomain`, and that string contains `//`; the subdomain is then that string's `split('//')[1]` |
| Dispatch.RedirectBodyHost | photobucket/__init__.py:181-183 | every 301 body whose `content.subdomain` is `scheme://host` yields `host`, whatever its other fields, status or raw text |
| Dispatch.RedirectBodyExample | photobucket/__init__.py:181-183 | a 301 body `{"content": {"subdomain": "http://s123.host.com"}}` yields the subdomain `s123.host.com` |
| Dispatch.Execute | photobucket/__init__.py:108-188 | auth and verb errors end the call with nothing sent and the state unchanged; only the subdomain can change; at most one request more than there are replies is sent; every request after the first was caused by a 301; every dispatched request hands signing the first request's URL, parameters, verb, consumer, token and body |
| Dispatch.ExecuteResultProvenance | photobucket/__init__.py:167-188 | a normal result or a wrapped HTTP error is the reply to the last request sent, and a wrapped HTTP error is never a 301 |
| Dispatch.ClassifyFirstReply | photobucket/__init__.py:167-187 | a normal reply is returned; a non-301 HTTP error becomes `PhotobucketError` with the response; a 301 without a usable subdomain ends in a redirect failure; each of these sends exactly one request |
| Dispatch.ExecuteSendsBuiltRequest | photobucket/__init__.py:162-170 | once the request builds and names a known method, something is always sent, and the first thing sent is exactly the request that was built |
| Dispatch.ExecuteDependsOnPreparedParams | photobucket/__init__.py:125-134 | two calls whose parameters prepare to the same map run identically |
| Dispatch.RedirectReissuesCall | photobucket/__init__.py:178-184 | after a usable 301, the run equals the first request followed by a run of the original call on a client whose subdomain is the new host |
| Dispatch.RetryTargetsNewSilo | photobucket/__init__.py:151-157 | on a silo call, the re-issued request goes to `http://host+path` for the host named by the 301, with redirects off |
| Dispatch.RetryWithoutSiloRepeatsRequest | photobucket/__init__.py:158-160 | without `silo`, the re-issued request is identical to the one that drew the 301, because the stored subdomain is not used |
## Left out

- HTTP transport (`requests`, `raise_for_status`, redirect following): replaced by a scripted sequence of outcomes. Which statuses raise is the library's business, and a reply is either delivered or raised.
- Dispatch.Execute: when the scripted outcomes run out, the call ends with `NoResponse`. This is an artefact of the finite script; the source would wait on the network. Repeated 301s recurse without bound in the source, so the model makes no "exactly one retry" claim.
- OAuth 1.0a HMAC-SHA1 signing, `from_consumer_and_token` and `to_url` (external `oauth2` library): the model stops at the consumer, token, verb, signing URL and parameter set handed to signing. The OAuth protocol parameters that library adds (nonce, timestamp, signature) are not modelled.
- Token validity: the external `oauth2.Token` rejects a missing key or secret. This is modelled as "both halves present" (`Auth.TokenValid`).
- The consumer is built from the instance key and secret, taken as strings. The external library's rejection of a `None` key or secret is not modelled.
- `parse_response` and JSON decoding: a response carries its decoded body as an optional `Json` value (absent when the body is not valid JSON). Every failure of the 301 body lookup becomes one `MalformedRedirect`. In the source these are a `KeyError`, `TypeError`, `IndexError`, `ValueError` or `AttributeError`.
- URL encoding and key order of query strings: login query parameters are a key→value map, and the login URL is the endpoint plus that map.
- Dispatch.ParseMethod: the verb lookup is a closed enumeration of the HTTP library's verb functions. Other attributes of that module that `getattr` would also find are not modelled. Lower-casing covers ASCII letters only.
- `AttributeError` raised by the HTTP call itself (not by the verb lookup) would also become `Invalid Http method`. This is not modelled.
- Mutation of the caller's own `params` dict: the source's `setdefault` and `del` mutate a non-empty dict passed in by the caller. The model is functional and returns the prepared map.
- Params.CleanIdentifier: parameter values are `None`, strings or lists of strings. Other Python values (numbers, lists holding non-strings) are not modelled. So the `TypeError` that `'%2F'.join` raises on a list with a non-string item cannot occur in the model.
- Python truthiness is modelled for strings, lists and `None` only. An empty `params` dict is replaced by a fresh empty dict, and the model treats both alike.
- The per-resource wrappers (`AlbumAndGroupBase`, `Album`, `GroupAlbums`, `Media`, `Search`, `Users`), `get_timestamp`, `ping`, `login_request` and `get_access_token`: each only assembles arguments for `make_request`. Only the class `URI` of each API is kept (`Client.Uri`).
- `setup.py`: packaging metadata, no logic.
