/** The HTTP exchange with a bank, as the service sees it. */
module Transport {
  import opened Wrappers
  import opened GoBase

  datatype HttpRequest = HttpRequest(httpMethod: string, url: string, payload: seq<byte>, headers: map<string, string>)

  /** What one POST returns: the body (None for Go's nil slice), the status, the error. */
  datatype HttpResult = HttpResult(body: Option<seq<byte>>, status: int, err: Option<GoError>)

  /** A blocking POST with its timeout; nothing about the network is modelled. */
  type Sender = HttpRequest -> HttpResult

  const StatusOK := 200

  /** The bytes handed to the decoder: Go's nil slice is the empty input. */
  function BodyBytes(r: HttpResult): seq<byte>
  {
    if r.body.Some? then r.body.value else []
  }

  /**
   * The helper that performs the POST returns a nil body only together with
   * an error: a response that was read always yields a (possibly empty) slice.
   */
  predicate FromSendRequest(r: HttpResult)
  {
    r.err.None? ==> r.body.Some?
  }
}
