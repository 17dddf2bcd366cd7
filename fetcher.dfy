/** `fetchAPI` (main.go:35-60) with the HTTP client abstracted away: what one GET
    request ended in becomes a `Transport` value, and the function classifies it into
    the `apiResponse` the fetcher sends on the shared channel. */
module Fetcher {
  import opened Wrappers

  const STATUS_OK := 200

  /** What reading the response body gave (`io.ReadAll`, main.go:54). */
  datatype BodyRead = BodyOk(bytes: string) | BodyFailed(cause: string)

  /** How one request ended, in the order fetchAPI meets the stages. */
  datatype Transport =
    | BadRequest(cause: string)               // http.NewRequestWithContext failed, main.go:36-39
    | NoResponse(cause: string)               // client.Do failed (also: the deadline passed), main.go:42-45
    | Responded(status: int, body: BodyRead)  // a response arrived, main.go:49-58

  /** The errors fetchAPI puts in a response. */
  datatype FetchError =
    | RequestFailed(cause: string)
    | TransportFailed(cause: string)
    | HttpStatus(code: int)                   // "HTTP error: %d", main.go:50
    | ReadFailed(cause: string)

  /** `apiResponse` (main.go:14-18); `err == None` is Go's nil error. */
  datatype ApiResponse = ApiResponse(body: string, source: string, err: Option<FetchError>)

  /** The request produced a usable body: status 200 and a body read in full. */
  predicate Delivered(t: Transport) {
    t.Responded? && t.status == STATUS_OK && t.body.BodyOk?
  }

  function FetchApi(source: string, t: Transport): (r: ApiResponse)
    // only a delivered body succeeds, carrying that body and the fetcher's tag
    ensures r.err.None? <==> Delivered(t)
    ensures Delivered(t) ==> r == ApiResponse(t.body.bytes, source, None)
    // every failure is a bare error: no body and no source tag
    ensures r.err.Some? ==> r.body == "" && r.source == ""
    // a status other than 200 is reported as such, whatever the body
    ensures t.Responded? && t.status != STATUS_OK ==> r.err == Some(HttpStatus(t.status))
    ensures t.BadRequest? ==> r.err == Some(RequestFailed(t.cause))
    ensures t.NoResponse? ==> r.err == Some(TransportFailed(t.cause))
    ensures t.Responded? && t.status == STATUS_OK && t.body.BodyFailed? ==>
      r.err == Some(ReadFailed(t.body.cause))
  {
    match t
    case BadRequest(cause) => ApiResponse("", "", Some(RequestFailed(cause)))
    case NoResponse(cause) => ApiResponse("", "", Some(TransportFailed(cause)))
    case Responded(status, body) =>
      if status != STATUS_OK then ApiResponse("", "", Some(HttpStatus(status)))
      else
        match body
        case BodyFailed(cause) => ApiResponse("", "", Some(ReadFailed(cause)))
        case BodyOk(bytes) => ApiResponse(bytes, source, None)
  }

  /** A non-200 response is never read: its outcome is the same whatever the body
      would have been, a failed read included. */
  lemma NonOkBodyNeverRead(source: string, status: int, b1: BodyRead, b2: BodyRead)
    requires status != STATUS_OK
    ensures FetchApi(source, Responded(status, b1)) == FetchApi(source, Responded(status, b2))
    ensures FetchApi(source, Responded(status, b1)).err.Some?
  {
  }

  /** Only a success can be told apart by source: two fetchers with different tags
      produce identical responses exactly when the request failed. */
  lemma ErrorsCarryNoSource(s1: string, s2: string, t: Transport)
    requires s1 != s2
    ensures FetchApi(s1, t) == FetchApi(s2, t) <==> !Delivered(t)
  {
  }
}
