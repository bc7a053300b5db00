/** The network as seen by the coordinator: one HTTP exchange per call,
    bounded by an `async_timeout` deadline. */
module Http {
  import opened Json

  /** What the Blocky server (or the transport) does with one request,
      with times measured in milliseconds from the moment the call starts. */
  datatype Exchange =
    | Answered(status: int, body: JsonValue, atMs: nat)  // response and decoded body in hand at `atMs`
    | Refused(atMs: nat)                                   // an `aiohttp.ClientError` is raised at `atMs`
    | Silent                                               // nothing ever comes back

  /** The outcome of the call once the deadline is applied. */
  datatype Outcome = Status(code: int, body: JsonValue) | Timeout | ClientError

  /** Applies a deadline: anything that happens at or after the deadline is
      cut off by `async_timeout` and surfaces as `asyncio.TimeoutError`. */
  function Resolve(x: Exchange, deadlineMs: nat): (r: Outcome)
    ensures r.Status? <==> x.Answered? && x.atMs < deadlineMs
    ensures r.Status? ==> r.code == x.status && r.body == x.body
    ensures r.ClientError? <==> x.Refused? && x.atMs < deadlineMs
    ensures x.Silent? ==> r.Timeout?
  {
    match x
    case Answered(status, body, at) => if at < deadlineMs then Status(status, body) else Timeout
    case Refused(at) => if at < deadlineMs then ClientError else Timeout
    case Silent => Timeout
  }

  /** True when the call yields HTTP 200 before the deadline. */
  predicate IsOk(x: Exchange, deadlineMs: nat) {
    x.Answered? && x.atMs < deadlineMs && x.status == 200
  }

  datatype Verb = Get | Post

  /** One request sent to the Blocky API: verb, path below `http://host:port`,
      query parameters, JSON payload (JNull when none) and deadline. */
  datatype Request = Request(verb: Verb, path: string, params: map<string, string>,
                             payload: JsonValue, deadlineMs: nat)

  /** A control action: the request it sends, the value it returns to its
      caller, and whether it asks the coordinator for a follow-up refresh. */
  datatype Call<+T> = Call(request: Request, value: T, refresh: bool)

  /** `async_timeout.timeout(seconds)` in milliseconds. */
  function DeadlineMs(seconds: nat): nat {
    seconds * 1000
  }
}
