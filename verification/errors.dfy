/** The exceptions a request can end in. */
module Errors {
  import opened Transport

  const TOKEN_REQUIRED: string := "Token and Token secret must be set."
  const INVALID_METHOD: string := "Invalid Http method"
  const LOGIN_TOKEN_MISSING: string := "token needs to be set on instance or provided."

  datatype Error =
    /** `PhotobucketAPIError`: a usage or configuration error, raised before anything is sent. */
    | ApiError(message: string)
    /** `PhotobucketError`: an HTTP error other than a 301, carrying the response. */
    | RequestError(response: Response)
    /** The lookup/split failure of a 301 whose body has no usable `content.subdomain`. */
    | MalformedRedirect
    /** The scripted transport has no outcome left for a dispatched request. */
    | NoResponse
}
