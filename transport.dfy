/**
 * The transport of the API client: aiohttp sessions, the scripted network that
 * answers requests, the client's error taxonomy and `_api_wrapper`'s mapping of
 * a response or an exception onto it.
 */
module Transport {
  import opened Common
  import opened Endpoints

  // ---------------------------------------------------------------------
  // Error taxonomy
  // ---------------------------------------------------------------------

  /** The client's exception classes, and the one kind of failure outside them. */
  datatype ApiError =
    | AuthError          // EngieBeApiClientAuthenticationError
    | CommError          // EngieBeApiClientCommunicationError
    | MfaError           // EngieBeApiClientMfaError
    | ClientError        // the base EngieBeApiClientError
    | TokenLookupError   // KeyError/TypeError from indexing a token response: not an EngieBeApiClientError

  /** The outcome of a call: a value, or the exception it raises. `:-` propagates the exception. */
  datatype Result<+T> = Ok(value: T) | Err(error: ApiError) {
    predicate IsFailure() { Err? }
    function PropagateFailure<U>(): Result<U> requires Err? { Err(error) }
    function Extract(): T requires Ok? { value }
  }

  /** The exception is one of the client's own (`except EngieBeApiClientError` catches it). */
  predicate IsClientError(e: ApiError) {
    e != TokenLookupError
  }

  // ---------------------------------------------------------------------
  // Requests and scripted outcomes
  // ---------------------------------------------------------------------

  /** How aiohttp's `response.json()` fares on a body. */
  datatype JsonBody =
    | Parsed(doc: Json)
    | NotJsonContent   // ContentTypeError, an aiohttp.ClientError
    | Malformed        // json.JSONDecodeError, a ValueError

  /** What one `session.request` call yields. */
  datatype Outcome =
    | Reply(status: int, text: string, json: JsonBody)
    | TimedOut         // TimeoutError
    | NetworkError     // aiohttp.ClientError or socket.gaierror
    | Crash            // any other exception, e.g. RuntimeError on a closed session

  /** A call made on a session. */
  datatype Request = Request(via: Session, call: Call)

  /** What `_api_wrapper` returns: `response.text()` or `response.json()`. */
  datatype Payload = Text(body: string) | Doc(doc: Json)

  /** The network seen as a value: a fixed script of outcomes, the position of the
      next one, and the requests sent so far. */
  datatype Wire = Wire(script: seq<Outcome>, next: nat, sent: seq<Request>)

  /** The outcome answering the request at position i; an exhausted script means an unreachable host. */
  function At(script: seq<Outcome>, i: nat): Outcome {
    if i < |script| then script[i] else NetworkError
  }

  /** The outcome that answers the k-th request sent from wire w onward. */
  function Ahead(w: Wire, k: nat): Outcome {
    At(w.script, w.next + k)
  }

  /** The body text of an outcome (only a Reply has one). */
  function TextOf(o: Outcome): string {
    if o.Reply? then o.text else ""
  }

  /** A request on an open session is sent and answered by the next scripted outcome;
      on a closed session aiohttp raises before anything is sent. */
  function Deliver(w: Wire, open: bool, req: Request): (r: (Wire, Outcome))
    ensures !open ==> r == (w, Crash)
    ensures open ==> r.0 == Wire(w.script, w.next + 1, w.sent + [req]) && r.1 == Ahead(w, 0)
  {
    if open then (Wire(w.script, w.next + 1, w.sent + [req]), At(w.script, w.next)) else (w, Crash)
  }

  // ---------------------------------------------------------------------
  // _api_wrapper
  // ---------------------------------------------------------------------

  /** `_api_wrapper`'s treatment of one outcome, with its `raise_on_error` and
      `json_response` flags. */
  function Classify(o: Outcome, raiseOnError: bool, jsonResponse: bool): Result<Payload>
  {
    match o
    case TimedOut => Err(CommError)
    case NetworkError => Err(CommError)
    case Crash => Err(ClientError)
    case Reply(status, text, json) =>
      if raiseOnError && (status == 401 || status == 403) then Err(AuthError)
      else if raiseOnError && status >= 400 then Err(CommError)   // raise_for_status raises a ClientResponseError
      else if jsonResponse then
        match json
        case Parsed(doc) => Ok(Doc(doc))
        case NotJsonContent => Err(CommError)
        case Malformed => Err(ClientError)
      else Ok(Text(text))
  }

  /** The error taxonomy of `_api_wrapper`: with `raise_on_error`, 401/403 is an
      authentication error and any other status from 400 up a communication error;
      timeouts and network errors are communication errors; an undecodable JSON body or
      any other unexpected exception is the base error; without `raise_on_error` the text
      body comes back whatever the status. */
  lemma ClassifySpec(o: Outcome, raiseOnError: bool, jsonResponse: bool)
    ensures var r := Classify(o, raiseOnError, jsonResponse);
      && (r.Err? ==> r.error in {AuthError, CommError, ClientError})
      && (r == Err(AuthError) <==> raiseOnError && o.Reply? && (o.status == 401 || o.status == 403))
      && (o.TimedOut? || o.NetworkError? ==> r == Err(CommError))
      && (o.Crash? ==> r == Err(ClientError))
      && (o.Reply? && raiseOnError && o.status >= 400 && o.status != 401 && o.status != 403 ==> r == Err(CommError))
      && (r.Ok? ==> o.Reply? && (raiseOnError ==> o.status < 400))
      && (r.Ok? ==> if jsonResponse then o.json.Parsed? && r.value == Doc(o.json.doc) else r.value == Text(o.text))
      && (o.Reply? && !raiseOnError && !jsonResponse ==> r == Ok(Text(o.text)))
      && (o.Reply? && jsonResponse && (!raiseOnError || o.status < 400) ==>
            r == match o.json { case Parsed(d) => Ok(Doc(d)) case NotJsonContent => Err(CommError) case Malformed => Err(ClientError) })
  {
  }

  /** One `_api_wrapper` call as a value: the new wire and the classified result. */
  datatype Step<+T> = Step(wire: Wire, result: Result<T>) {
    predicate IsFailure() { result.Err? }
    function PropagateFailure<U>(): Step<U> requires result.Err? { Step(wire, Err(result.error)) }
    function Extract(): (Wire, T) requires result.Ok? { (wire, result.value) }
  }

  function Exchange(w: Wire, open: bool, req: Request, raiseOnError: bool, jsonResponse: bool): Step<Payload> {
    var (w', o) := Deliver(w, open, req);
    Step(w', Classify(o, raiseOnError, jsonResponse))
  }

  /** `_api_wrapper(..., json_response=False)`: the body text, or the exception. */
  function FetchText(w: Wire, open: bool, req: Request, raiseOnError: bool): Step<string> {
    var x := Exchange(w, open, req, raiseOnError, false);
    if x.result.Err? then Step(x.wire, Err(x.result.error)) else Step(x.wire, Ok(x.result.value.body))
  }

  /** `_api_wrapper(..., json_response=True)`: the decoded document, or the exception. */
  function FetchJson(w: Wire, open: bool, req: Request): Step<Json> {
    var x := Exchange(w, open, req, true, true);
    if x.result.Err? then Step(x.wire, Err(x.result.error)) else Step(x.wire, Ok(x.result.value.doc))
  }

  // ---------------------------------------------------------------------
  // The stateful side: sessions and the network
  // ---------------------------------------------------------------------

  /** An aiohttp.ClientSession, reduced to how often it was closed. */
  class Session {
    var closeCount: nat

    constructor ()
      ensures closeCount == 0
    {
      closeCount := 0;
    }

    predicate IsOpen()
      reads this
    {
      closeCount == 0
    }

    method Close()
      modifies this
      ensures closeCount == old(closeCount) + 1
    {
      closeCount := closeCount + 1;
    }
  }

  /** The scripted server side of every session. */
  class Network {
    const script: seq<Outcome>
    var next: nat
    ghost var sent: seq<Request>

    constructor (script: seq<Outcome>)
      ensures State() == Wire(script, 0, [])
    {
      this.script := script;
      next := 0;
      sent := [];
    }

    ghost function State(): Wire
      reads this
    {
      Wire(script, next, sent)
    }

    /** `session.request(...)`, answered from the script. */
    method Send(req: Request) returns (o: Outcome)
      modifies this
      ensures (State(), o) == Deliver(old(State()), req.via.IsOpen(), req)
    {
      if req.via.closeCount > 0 {
        o := Crash;
      } else {
        o := At(script, next);
        next := next + 1;
        sent := sent + [req];
      }
    }
  }
}
