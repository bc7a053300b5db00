/** The data update coordinator: one status poll, the disabled-groups
    normalisation, the classification of poll failures, and the control
    actions, each as a decision over the HTTP exchange it performs. */
module Coordinator {
  import opened Wrappers
  import opened Json
  import opened Http

  /** The status field the coordinator defends. */
  const DisabledGroupsKey: string := "disabledGroups"

  /** Settling delay between a successful enable/disable and the follow-up refresh. */
  const SettleMs: nat := 500

  // ---------------------------------------------------------------------------
  // Status poll
  // ---------------------------------------------------------------------------

  /** Forces `disabledGroups` to be a list: absent, null or any non-list value
      becomes `[]`; a list (of anything) and every other field pass through. */
  function NormalizeStatus(data: Object): (r: Object)
    ensures DisabledGroupsKey in r && r[DisabledGroupsKey].JList?
    ensures r.Keys == data.Keys + {DisabledGroupsKey}
    ensures forall k :: k in data && k != DisabledGroupsKey ==> r[k] == data[k]
    ensures DisabledGroupsKey in data && data[DisabledGroupsKey].JList? ==>
              r[DisabledGroupsKey] == data[DisabledGroupsKey]
    ensures !(DisabledGroupsKey in data && data[DisabledGroupsKey].JList?) ==>
              r[DisabledGroupsKey] == JList([])
  {
    if DisabledGroupsKey !in data then data[DisabledGroupsKey := JList([])]
    else if data[DisabledGroupsKey].JNull? then data[DisabledGroupsKey := JList([])]
    else if !data[DisabledGroupsKey].JList? then data[DisabledGroupsKey := JList([])]
    else data
  }

  /** Normalising an already normalised payload changes nothing. */
  lemma NormalizeIdempotent(data: Object)
    ensures NormalizeStatus(NormalizeStatus(data)) == NormalizeStatus(data)
  {
  }

  /** A payload whose `disabledGroups` is already a list is returned unchanged. */
  lemma NormalizeFixesLists(data: Object)
    requires DisabledGroupsKey in data && data[DisabledGroupsKey].JList?
    ensures NormalizeStatus(data) == data
  {
  }

  /** What the generic `except Exception` handler of the poll caught. */
  datatype Cause =
    | ApiReturned(status: int)  // the non-200 `UpdateFailed` of `_fetch_status`, re-caught by `except Exception`
    | NotAnObject               // the body is not a JSON object, so the normalisation raises `TypeError`

  /** The single `UpdateFailed` the poll raises, by the handler that raised it. */
  datatype UpdateFailed =
    | TimeoutCommunicating      // "Timeout communicating with API"
    | ErrorCommunicating        // "Error communicating with API"
    | UnexpectedError(cause: Cause)  // "Unexpected error"

  function StatusRequest(timeoutS: nat): Request {
    Request(Get, "/api/blocking/status", map[], JNull, DeadlineMs(timeoutS))
  }

  /** One poll of the status endpoint: the normalised payload on a 200 with a
      JSON object body, and otherwise exactly one classified failure. */
  function UpdateData(timeoutS: nat, x: Exchange): (r: Result<Object, UpdateFailed>)
    ensures r.Success? <==> IsOk(x, DeadlineMs(timeoutS)) && x.body.JObject?
    ensures r.Success? ==> r.value == NormalizeStatus(x.body.fields)
    ensures r.Success? ==> DisabledGroupsKey in r.value && r.value[DisabledGroupsKey].JList?
    ensures r.Success? ==> forall k :: k in x.body.fields && k != DisabledGroupsKey ==>
                                       k in r.value && r.value[k] == x.body.fields[k]
    ensures r.Success? ==> r.value.Keys == x.body.fields.Keys + {DisabledGroupsKey}
    ensures r == Failure(TimeoutCommunicating) <==> Resolve(x, DeadlineMs(timeoutS)).Timeout?
    ensures r == Failure(ErrorCommunicating) <==> Resolve(x, DeadlineMs(timeoutS)).ClientError?
    ensures r.Failure? && r.error.UnexpectedError? && r.error.cause.ApiReturned? <==>
              x.Answered? && x.atMs < DeadlineMs(timeoutS) && x.status != 200
    ensures r.Failure? && r.error.UnexpectedError? ==>
              r.error.cause == (if x.status == 200 then NotAnObject else ApiReturned(x.status))
  {
    match Resolve(x, StatusRequest(timeoutS).deadlineMs)
    case Timeout => Failure(TimeoutCommunicating)
    case ClientError => Failure(ErrorCommunicating)
    case Status(code, body) =>
      if code != 200 then Failure(UnexpectedError(ApiReturned(code)))
      else if !body.JObject? then Failure(UnexpectedError(NotAnObject))
      else Success(NormalizeStatus(body.fields))
  }

  /** A non-200 status answer is never reported as a communication problem:
      it always ends as an unexpected error carrying the status code. */
  lemma BadStatusIsUnexpected(timeoutS: nat, code: int, body: JsonValue, atMs: nat)
    requires code != 200 && atMs < DeadlineMs(timeoutS)
    ensures UpdateData(timeoutS, Answered(code, body, atMs)) ==
            Failure(UnexpectedError(ApiReturned(code)))
  {
  }

  /** A payload without the field: `{"enabled": true}` polls to
      `{"enabled": true, "disabledGroups": []}`. */
  lemma MissingGroupsExample()
    ensures UpdateData(10, Answered(200, JObject(map["enabled" := JBool(true)]), 20)) ==
            Success(map["enabled" := JBool(true), DisabledGroupsKey := JList([])])
  {
  }

  // ---------------------------------------------------------------------------
  // Control actions
  // ---------------------------------------------------------------------------

  /** An enable/disable call as intended: true exactly on a 200 within the
      deadline, and only then a refresh after the settling delay. */
  function MutatingCall(req: Request, x: Exchange): (r: Call<bool>)
    ensures r.request == req
    ensures r.value <==> IsOk(x, req.deadlineMs)
    ensures r.refresh <==> r.value
    ensures Resolve(x, req.deadlineMs).Timeout? || Resolve(x, req.deadlineMs).ClientError? ==>
              !r.value && !r.refresh
  {
    match Resolve(x, req.deadlineMs)
    case Status(code, _) => Call(req, code == 200, code == 200)
    case Timeout => Call(req, false, false)
    case ClientError => Call(req, false, false)
  }

  /** An enable/disable call as written: the settling sleep runs inside the
      request's deadline, so a 200 that leaves less than the settling delay
      before the deadline is cut off, returns false and requests no refresh. */
  function MutatingCallAsWritten(req: Request, x: Exchange): (r: Call<bool>)
    ensures r.request == req
    ensures r.value <==> IsOk(x, req.deadlineMs) && x.atMs + SettleMs < req.deadlineMs
    ensures r.refresh <==> r.value
  {
    match Resolve(x, req.deadlineMs)
    case Status(code, _) =>
      var settled := code == 200 && x.atMs + SettleMs < req.deadlineMs;
      Call(req, settled, settled)
    case Timeout => Call(req, false, false)
    case ClientError => Call(req, false, false)
  }

  /** The as-written and intended calls differ exactly on a 200 arriving in the
      last settling delay before the deadline. */
  lemma SettleWindowDiscrepancy(req: Request, x: Exchange)
    ensures MutatingCallAsWritten(req, x) != MutatingCall(req, x) <==>
              IsOk(x, req.deadlineMs) && x.atMs + SettleMs >= req.deadlineMs
  {
    match Resolve(x, req.deadlineMs)
    case Status(code, _) =>
    case Timeout =>
    case ClientError =>
  }

  /** Concrete input: default 10 s timeout, enable answered 200 after 9.6 s. */
  lemma EnableLateAnswerExample()
    ensures !EnableBlockingAsWritten(10, Answered(200, JNull, 9600)).value
    ensures !EnableBlockingAsWritten(10, Answered(200, JNull, 9600)).refresh
    ensures EnableBlocking(10, Answered(200, JNull, 9600)).value
    ensures EnableBlocking(10, Answered(200, JNull, 9600)).refresh
  {
  }

  function EnableRequest(timeoutS: nat): Request {
    Request(Get, "/api/blocking/enable", map[], JNull, DeadlineMs(timeoutS))
  }

  /** `enable_blocking`: true iff the API answers 200 within the timeout, and a
      refresh is requested in exactly that case. */
  function EnableBlocking(timeoutS: nat, x: Exchange): (r: Call<bool>)
    ensures r.request == EnableRequest(timeoutS)
    ensures r.request.verb == Get && r.request.path == "/api/blocking/enable" && r.request.params == map[]
    ensures r.request.payload == JNull && r.request.deadlineMs == DeadlineMs(timeoutS)
    ensures r.value <==> x.Answered? && x.atMs < DeadlineMs(timeoutS) && x.status == 200
    ensures r.refresh <==> r.value
  {
    MutatingCall(EnableRequest(timeoutS), x)
  }

  /** `enable_blocking` as written: true iff the API answers 200 early enough
      for the settling sleep to end before the deadline. */
  function EnableBlockingAsWritten(timeoutS: nat, x: Exchange): (r: Call<bool>)
    ensures r.request == EnableRequest(timeoutS)
    ensures r.request.verb == Get && r.request.path == "/api/blocking/enable" && r.request.params == map[]
    ensures r.request.payload == JNull && r.request.deadlineMs == DeadlineMs(timeoutS)
    ensures r.value <==> x.Answered? && x.status == 200 && x.atMs + SettleMs < DeadlineMs(timeoutS)
    ensures r.refresh <==> r.value
  {
    MutatingCallAsWritten(EnableRequest(timeoutS), x)
  }

  /** A Python `str` argument defaulting to `None`: truthy when present and non-empty. */
  predicate Given(arg: Option<string>) {
    arg.Some? && arg.value != ""
  }

  /** The query parameters of `disable_blocking`: an argument is sent only when
      it is truthy, so `None` and `""` are omitted. */
  function DisableParams(duration: Option<string>, groups: Option<string>): (r: map<string, string>)
    ensures r.Keys <= {"duration", "groups"}
    ensures "duration" in r <==> Given(duration)
    ensures "groups" in r <==> Given(groups)
    ensures "duration" in r ==> r["duration"] == duration.value
    ensures "groups" in r ==> r["groups"] == groups.value
  {
    var withDuration := if Given(duration) then map["duration" := duration.value] else map[];
    if Given(groups) then withDuration["groups" := groups.value] else withDuration
  }

  function DisableRequest(timeoutS: nat, duration: Option<string>, groups: Option<string>): Request {
    Request(Get, "/api/blocking/disable", DisableParams(duration, groups), JNull, DeadlineMs(timeoutS))
  }

  /** `disable_blocking`: sends only the truthy arguments, then follows the same
      success and refresh contract as enabling. */
  function DisableBlocking(timeoutS: nat, duration: Option<string>, groups: Option<string>,
                           x: Exchange): (r: Call<bool>)
    ensures r.request == DisableRequest(timeoutS, duration, groups)
    ensures r.request.verb == Get && r.request.path == "/api/blocking/disable"
    ensures r.request.payload == JNull && r.request.deadlineMs == DeadlineMs(timeoutS)
    ensures r.request.params == DisableParams(duration, groups)
    ensures r.value <==> x.Answered? && x.atMs < DeadlineMs(timeoutS) && x.status == 200
    ensures r.refresh <==> r.value
  {
    MutatingCall(DisableRequest(timeoutS, duration, groups), x)
  }

  /** `disable_blocking` as written: the same settling cut-off as enabling. */
  function DisableBlockingAsWritten(timeoutS: nat, duration: Option<string>, groups: Option<string>,
                                    x: Exchange): (r: Call<bool>)
    ensures r.request == DisableRequest(timeoutS, duration, groups)
    ensures r.request.verb == Get && r.request.path == "/api/blocking/disable"
    ensures r.request.payload == JNull && r.request.deadlineMs == DeadlineMs(timeoutS)
    ensures r.request.params == DisableParams(duration, groups)
    ensures r.value <==> x.Answered? && x.status == 200 && x.atMs + SettleMs < DeadlineMs(timeoutS)
    ensures r.refresh <==> r.value
  {
    MutatingCallAsWritten(DisableRequest(timeoutS, duration, groups), x)
  }

  /** Concrete input: a disable for five minutes, answered 200 after 9.6 s of
      the default 10 s timeout. */
  lemma DisableLateAnswerExample()
    ensures !DisableBlockingAsWritten(10, Some("5m"), None, Answered(200, JNull, 9600)).value
    ensures !DisableBlockingAsWritten(10, Some("5m"), None, Answered(200, JNull, 9600)).refresh
    ensures DisableBlocking(10, Some("5m"), None, Answered(200, JNull, 9600)).value
    ensures DisableBlocking(10, Some("5m"), None, Answered(200, JNull, 9600)).refresh
  {
  }

  /** A plain call returning whether the API answered 200 in time, with no refresh. */
  function PlainCall(req: Request, x: Exchange): (r: Call<bool>)
    ensures r.request == req
    ensures r.value <==> IsOk(x, req.deadlineMs)
    ensures !r.refresh
  {
    match Resolve(x, req.deadlineMs)
    case Status(code, _) => Call(req, code == 200, false)
    case Timeout => Call(req, false, false)
    case ClientError => Call(req, false, false)
  }

  /** `refresh_lists`: a POST under three times the base timeout. */
  function RefreshLists(timeoutS: nat, x: Exchange): (r: Call<bool>)
    ensures r.request == Request(Post, "/api/lists/refresh", map[], JNull, 3 * DeadlineMs(timeoutS))
    ensures r.value <==> x.Answered? && x.atMs < 3 * DeadlineMs(timeoutS) && x.status == 200
    ensures !r.refresh
  {
    PlainCall(Request(Post, "/api/lists/refresh", map[], JNull, 3 * DeadlineMs(timeoutS)), x)
  }

  /** `flush_cache`: a POST under the base timeout. */
  function FlushCache(timeoutS: nat, x: Exchange): (r: Call<bool>)
    ensures r.request == Request(Post, "/api/cache/flush", map[], JNull, DeadlineMs(timeoutS))
    ensures r.value <==> x.Answered? && x.atMs < DeadlineMs(timeoutS) && x.status == 200
    ensures !r.refresh
  {
    PlainCall(Request(Post, "/api/cache/flush", map[], JNull, DeadlineMs(timeoutS)), x)
  }

  /** The same slow answer succeeds as a list refresh and times out as a cache
      flush: the list refresh has the longer deadline. */
  lemma SlowAnswerOnlyRefreshesLists(timeoutS: nat, body: JsonValue, atMs: nat)
    requires DeadlineMs(timeoutS) <= atMs < 3 * DeadlineMs(timeoutS)
    ensures RefreshLists(timeoutS, Answered(200, body, atMs)).value
    ensures !FlushCache(timeoutS, Answered(200, body, atMs)).value
  {
  }

  /** `query_dns`: the decoded body on a 200 within the timeout, else `None`
      (JNull). A 200 whose body is JSON null also reads as `None`. */
  function QueryDns(timeoutS: nat, query: string, queryType: string, x: Exchange): (r: Call<JsonValue>)
    ensures r.request == Request(Post, "/api/query", map[],
                                 JObject(map["query" := JStr(query), "type" := JStr(queryType)]),
                                 DeadlineMs(timeoutS))
    ensures IsOk(x, DeadlineMs(timeoutS)) ==> r.value == x.body
    ensures !IsOk(x, DeadlineMs(timeoutS)) ==> r.value == JNull
    ensures !r.refresh
  {
    var req := Request(Post, "/api/query", map[],
                       JObject(map["query" := JStr(query), "type" := JStr(queryType)]),
                       DeadlineMs(timeoutS));
    match Resolve(x, req.deadlineMs)
    case Status(code, body) => Call(req, if code == 200 then body else JNull, false)
    case Timeout => Call(req, JNull, false)
    case ClientError => Call(req, JNull, false)
  }
}
