/** Auth gating: whether a call needs, may use, or ignores the user's token pair. */
module Auth {
  import opened Wrappers
  import opened Errors

  const NOT_REQUIRED: int := 0
  const REQUIRED: int := 1
  const OPTIONAL: int := 2

  /** An OAuth token with its secret. */
  datatype TokenPair = TokenPair(key: string, secret: string)

  /** An OAuth token can be built only when both halves are set. */
  predicate TokenValid(token: Option<string>, tokenSecret: Option<string>)
  {
    token.Some? && tokenSecret.Some?
  }

  /**
   * The auth block of `make_request`. `REQUIRED` and `OPTIONAL` try to build
   * the token; only `REQUIRED` turns a missing half into an error. Any other
   * mode, `NOT_REQUIRED` included, never builds one.
   */
  function ResolveToken(auth: int, token: Option<string>, tokenSecret: Option<string>): (r: Result<Option<TokenPair>, Error>)
    ensures r.Err? <==> auth == REQUIRED && !TokenValid(token, tokenSecret)
    ensures r.Err? ==> r.error == ApiError(TOKEN_REQUIRED)
    ensures r.Ok? && r.value.Some? <==> (auth == REQUIRED || auth == OPTIONAL) && TokenValid(token, tokenSecret)
    ensures r.Ok? && r.value.Some? ==> r.value.value == TokenPair(token.value, tokenSecret.value)
  {
    if auth == REQUIRED || auth == OPTIONAL then
      if TokenValid(token, tokenSecret) then Ok(Some(TokenPair(token.value, tokenSecret.value)))
      else if auth == REQUIRED then Err(ApiError(TOKEN_REQUIRED))
      else Ok(None)
    else Ok(None)
  }
}
