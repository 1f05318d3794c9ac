/** Values exchanged between the registry client, its endpoint providers and the transport. */
module RegistryTypes {

  datatype Option<+T> = None | Some(value: T)

  /** The HTTP methods the registry endpoints use. */
  datatype HttpMethod = GET | POST | PUT | PATCH

  /** The credential attached to requests; opaque to the client. */
  datatype Authorization = Authorization(token: string)

  /** One entry of the registry's structured error body: {"code": ..., "message": ...}. */
  datatype ErrorEntry = ErrorEntry(code: string, message: string)

  /** The content of a failed response as the JSON mapper would read it. */
  datatype ErrorBody = Parsed(errors: seq<ErrorEntry>) | Malformed

  /** An HTTP failure as raised by the transport: status, Location header, content. */
  datatype HttpFailure = HttpFailure(status: int, location: Option<string>, content: ErrorBody)

  /** A successful HTTP response, handed to the endpoint's response handler. */
  datatype Response = Response(location: Option<string>, body: string)

  /** What the transport does with one request. */
  datatype Outcome =
    | Reply(response: Response)         // a successful response
    | HttpFail(failure: HttpFailure)    // an HTTP error status
    | NoHttpResponse                    // the connection produced no HTTP response at all
    | TransportFailure(detail: string)  // any other I/O failure of the connection

  /** The request built for one call: the credential, if any, and what the provider adds. */
  datatype Request = Request(authorization: Option<Authorization>, payload: string)

  /** One request as it went out on a connection. */
  datatype Issued = Issued(url: string, httpMethod: HttpMethod, request: Request)

  /** Failures surfaced to the caller of a client operation. */
  datatype RegistryError =
    | RegistryError(action: string, reasons: seq<ErrorEntry>, cause: HttpFailure)
    | Unauthorized(cause: HttpFailure)
    | NoResponse
    | Propagated(failure: HttpFailure)       // an HTTP failure rethrown unchanged
    | ErrorBodyUnreadable(cause: HttpFailure) // the structured error body did not parse
    | HandlerFailed(detail: string)          // the provider's response handler failed
    | Io(detail: string)                     // an I/O failure passed through
    | MalformedUrl                           // a URL was built from a missing string

  datatype Result<+T> = Ok(value: T) | Err(error: RegistryError)

  /** What a provider's response handler makes of a successful response. */
  datatype Handled<+T> = Value(value: T) | ParseFailed(detail: string)

  /**
   * An endpoint provider: the route suffix, the HTTP method, what buildRequest puts on the
   * request, the response handler and the action description used in error messages.
   */
  datatype Provider<T> = Provider(
    routeSuffix: string,
    httpMethod: HttpMethod,
    payload: string,
    handle: Response -> Handled<T>,
    describe: (string, string) -> string)

  /** The three sub-operations of a blob push and the commit URL it derives from a location. */
  datatype BlobPusher = BlobPusher(
    initializer: Provider<Option<string>>,
    writer: Provider<Option<string>>,
    committer: Provider<()>,
    commitUrl: string -> string)

  /** The answer to the next request of a script: its head, or no response once it is exhausted. */
  function Next(script: seq<Outcome>): Outcome {
    if script == [] then NoHttpResponse else script[0]
  }

  /** The script after one request has been answered. */
  function Rest(script: seq<Outcome>): seq<Outcome> {
    if script == [] then [] else script[1..]
  }

  /** The script after n requests have been answered. */
  function Drop(script: seq<Outcome>, n: nat): seq<Outcome> {
    if n == 0 then script else Drop(Rest(script), n - 1)
  }

  /** Dropping one answer and then n is dropping n + 1. */
  lemma {:induction false} DropSucc(script: seq<Outcome>, n: nat)
    ensures Drop(Rest(script), n) == Drop(script, n + 1)
  {
  }

  /** Answering a requests and then b more is answering a + b requests. */
  lemma {:induction false} DropAdd(script: seq<Outcome>, a: nat, b: nat)
    ensures Drop(Drop(script, a), b) == Drop(script, a + b)
    decreases a
  {
    if a > 0 {
      DropAdd(Rest(script), a - 1, b);
    }
  }

  /** Answers scripted after the first n do not change what is left of those n. */
  lemma {:induction false} DropAppend(script: seq<Outcome>, more: seq<Outcome>, n: nat)
    requires n <= |script|
    ensures Drop(script + more, n) == Drop(script, n) + more
    decreases n
  {
    if n > 0 {
      assert Rest(script + more) == Rest(script) + more;
      DropAppend(Rest(script), more, n - 1);
    }
  }

  /** Once every scripted answer has been used, none is left. */
  lemma {:induction false} DropAll(script: seq<Outcome>)
    ensures Drop(script, |script|) == []
    decreases |script|
  {
    if script != [] {
      DropAll(script[1..]);
    }
  }
}
