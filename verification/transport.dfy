/**
 * The boundary to the HTTP library: what a dispatched request comes back with.
 * The network itself is not modelled; a run is driven by a scripted sequence
 * of outcomes, one per dispatched request.
 */
module Transport {
  import opened Wrappers

  /** A decoded JSON document, as far as the redirect handling looks into it. */
  datatype Json = JObject(fields: map<string, Json>) | JString(s: string) | JOther

  /** An HTTP response: status, raw body, and the body's JSON decoding (None when it is not valid JSON). */
  datatype Response = Response(status: int, content: string, json: Option<Json>)

  /** `Delivered`: the call returned normally; `Raised`: `raise_for_status` raised an HTTP error for it. */
  datatype Outcome = Delivered(response: Response) | Raised(response: Response)
}
