/** The HTTP response a local API handler produces and the client receives. */
module Http {
  import opened Wrappers
  import opened Js

  /** Status code, `Content-Type` header (when set) and body text. */
  datatype Response = Response(status: int, contentType: Option<string>, body: Text)

  /** `response.ok` of the Fetch API. */
  predicate Ok(r: Response)
  {
    200 <= r.status <= 299
  }

  /** What an awaited `fetch` gives: a response, or a rejection (network error). */
  datatype Fetched = NetworkError | Received(response: Response)
}
