/** The browser's `fetch` seen from the client: what is sent and what can
    come back. The network itself is not modelled; each call's outcome is an
    input to the operation that makes the call. */
module Http {
  import opened Values

  /** A header record as a JavaScript object literal: later spreads win. */
  type Headers = map<string, string>

  /** The options record passed to `fetch`; `verb` is its `method`. */
  datatype RequestInit = RequestInit(verb: Option<string>, headers: Option<Headers>, body: Option<Json>)

  datatype Request = Request(url: string, init: RequestInit)

  /** A response; `body` is None when the payload is not valid JSON, in which
      case `res.json()` rejects. */
  datatype Response = Response(status: int, body: Option<Json>)

  /** What one `fetch` call produced: a response, or a rejected promise
      (network error, DNS failure, refused connection). */
  datatype FetchOutcome = Delivered(response: Response) | NetworkError

  /** `res.ok` of the Fetch standard: a status in 200..299. */
  predicate IsOk(r: Response) {
    200 <= r.status <= 299
  }

  /** The outcome yields a response whose `json()` resolves. */
  predicate Parsed(outcome: FetchOutcome) {
    outcome.Delivered? && outcome.response.body.Some?
  }
}
