# Blocky for Home Assistant: coordinator and metric views

This project models the two pure layers of the Home Assistant integration for
the Blocky DNS blocker and proves properties about them.

- **Coordinator** (`__init__.py`). A status poll reads `/api/blocking/status`.
  It forces the `disabledGroups` field to be a list, and it turns every failure
  into a single `UpdateFailed`. There are five control actions: enable,
  disable, refresh lists, flush cache and DNS query. Each one is a decision
  over the one HTTP exchange it performs. That decision yields the value
  returned to the caller and whether a follow-up refresh is requested.
- **Sensors** (`sensor.py`). These are pure views over a list of metric
  samples:
  - the scalar lookup `get_metric_value`;
  - the per-label breakdowns of the query-total and response-total sensors;
  - the case-insensitive `blocked` and `cached` counters;
  - the last-write-wins `by_group` map of the denylist and allowlist cache
    sensors;
  - the disabled-groups sensor's state text and attributes.

The network is one `Http.Exchange` per call. The server answers with a status
and a decoded JSON body at some millisecond, or the transport raises a client
error at some millisecond, or nothing ever comes back.
`Http.Resolve` applies the `async_timeout` deadline. It produces
`Status(code, body)`, `Timeout` or `ClientError`. Anything at or after the
deadline is a timeout. Deadlines are parameters. The base timeout is
`timeoutS` seconds, and the list refresh gets three times that.

Python dicts that the sensors build are insertion-ordered association lists
(`Dict`). Assigning to an existing key keeps its position, and a new key is
appended. Sample values are `Num(int)` or `Str(string)`. Python's `None` is
`Option.None`. In a JSON position it is `JNull`.

Modules, one per file:
- `wrappers.dfy`: `Wrappers`
- `json.dfy`: `Json`
- `http.dfy`: `Http`
- `coordinator.dfy`: `Coordinator`
- `dict.dfy`: `Dict`
- `metrics.dfy`: `Metrics`
- `case_fold.dfy`: `CaseFold`
- `breakdowns.dfy`: `Breakdowns`
- `sensors.dfy`: `Sensors`

Three facts about the code shape the model:
- A non-200 status answer is reported as an unexpected error
  (__init__.py:119-128), not as a separate bad-status failure.
  `_fetch_status` raises `UpdateFailed`, and the poll's generic
  `except Exception` catches it and raises
  `Coordinator.UnexpectedError(ApiReturned(code))`.
- The integration contains no Prometheus text parser and no metric
  allow-list. The metric samples and the metrics-enabled flag are therefore
  inputs to the sensor views.
- `enable_blocking` and `disable_blocking` can return false after a 200
  answer (__init__.py:135-144, 155-165; see Findings).

## Model

| member | source | states |
|---|---|---|
| Http.Resolve | __init__.py:101-118 | An answer or client error strictly before the deadline passes through, with its status and body. Anything later, or silence, is a timeout. |
| Coordinator.NormalizeStatus | __init__.py:106-114 | `disabledGroups` is always a list afterwards. An absent key, `null` or any non-list becomes `[]`. A list, even empty or with non-string elements, is kept as it is. Every other key keeps its value, and no other key is added or removed. |
| Coordinator.NormalizeIdempotent | __init__.py:106-114 | Normalising twice is the same as normalising once. |
| Coordinator.NormalizeFixesLists | __init__.py:111-114 | A payload whose `disabledGroups` is already a list comes back unchanged. |
| Coordinator.UpdateData | __init__.py:99-129 | A poll succeeds exactly on a 200 answer before the deadline whose body is a JSON object. The result is then `NormalizeStatus` of that object, so a list-valued `disabledGroups` survives and every other field is kept. Otherwise it fails with exactly one `UpdateFailed` and no data: a timeout, a client error, or "unexpected" for a non-200 answer or a body that is not a JSON object. |
| Coordinator.BadStatusIsUnexpected | __init__.py:115-128 | A non-200 status answer always ends as an unexpected error carrying its code. It is never reported as a timeout or a communication error. |
| Coordinator.MissingGroupsExample | __init__.py:107-108 | `{"enabled": true}` polls to `{"enabled": true, "disabledGroups": []}`. |
| Coordinator.MutatingCall | __init__.py:136-144 | The intended enable/disable decision returns true iff the answer is 200 before the deadline. It requests a refresh exactly then. A timeout or client error gives false and no refresh. |
| Coordinator.MutatingCallAsWritten | __init__.py:136-144 | As written, the call returns true iff the answer is 200 and arrives more than the 0.5 s settling delay before the deadline. A refresh is requested exactly when true is returned. |
| Coordinator.SettleWindowDiscrepancy | __init__.py:137-142 | The as-written and intended calls differ exactly when the 200 arrives in the last 0.5 s before the deadline. |
| Coordinator.EnableLateAnswerExample | __init__.py:135-144 | With a 10 s timeout and a 200 after 9.6 s, the code as written returns false with no refresh. The intended behaviour returns true with a refresh. |
| Coordinator.EnableBlocking | __init__.py:131-144 | `enable_blocking` sends exactly one GET of `/api/blocking/enable` with no parameters and no body, under the base timeout. It returns true iff the answer is 200 in time, and only then requests a refresh. |
| Coordinator.EnableBlockingAsWritten | __init__.py:131-144 | `enable_blocking` as written is the same GET. It returns true iff the answer is 200 and arrives more than 0.5 s before the deadline, and requests a refresh exactly then. |
| Coordinator.DisableParams | __init__.py:149-153 | `duration` is sent iff it is given and non-empty. The same holds for `groups`, and each is sent with its own value. No other parameter is sent. |
| Coordinator.DisableBlocking | __init__.py:146-165 | `disable_blocking` sends exactly one GET of `/api/blocking/disable` with no body, under the base timeout. Its parameters are exactly `DisableParams` of the arguments. Then it follows the same success and refresh contract as enable. |
| Coordinator.DisableBlockingAsWritten | __init__.py:146-165 | `disable_blocking` as written sends the same request. It returns true iff the answer is 200 and arrives more than 0.5 s before the deadline, and requests a refresh exactly then. |
| Coordinator.DisableLateAnswerExample | __init__.py:155-165 | With a 10 s timeout and a disable for `5m` answered 200 after 9.6 s, the code as written returns false with no refresh. The intended behaviour returns true with a refresh. |
| Coordinator.PlainCall | __init__.py:172-175 | A plain POST returns whether the answer was 200 before the deadline. It never requests a refresh. |
| Coordinator.RefreshLists | __init__.py:167-175 | `refresh_lists` sends exactly one POST of `/api/lists/refresh` with no parameters and no body, under three times the base timeout. It returns true iff the answer is 200 in time, and never requests a refresh. |
| Coordinator.FlushCache | __init__.py:177-185 | `flush_cache` sends exactly one POST of `/api/cache/flush` with no parameters and no body, under the base timeout. It returns true iff the answer is 200 in time, and never requests a refresh. |
| Coordinator.SlowAnswerOnlyRefreshesLists | __init__.py:171-181 | A 200 that arrives between the base deadline and three times it counts as success for a list refresh. The same answer is a timeout for a cache flush. |
| Coordinator.QueryDns | __init__.py:187-198 | `query_dns` sends exactly one POST of `/api/query` with no parameters and the body `{"query", "type"}`, under the base timeout. It returns the decoded body on a 200 in time, and otherwise `None`, including on a timeout or client error. It never requests a refresh. |
| Dict.Put | sensor.py:468-469 | `d[k] = v` keeps the keys distinct. An existing key keeps its place, and a new key is appended at the end. |
| Dict.GetPut | sensor.py:469 | After `d[k] = v`, `k` reads `v` and every other key reads as before. |
| Dict.Add | sensor.py:308-311 | `if k not in d: d[k] = 0; d[k] += v` keeps the keys distinct. An existing key keeps its place, and a new key is appended at the end. |
| Dict.GetAdd | sensor.py:309-311 | After accumulating, `k` reads its old value plus `v`, counting an absent key as 0. Every other key reads as before. |
| Dict.SumAdd | sensor.py:309-311 | Accumulating `v` under any key raises the total of the values by exactly `v`. |
| Metrics.NumericSumOfStrings | sensor.py:203-205 | Summing only string values gives 0, because strings are skipped. |
| Metrics.NumericSum | sensor.py:205 | The sum of the numeric values skips strings. With no negative number it is not negative. |
| Metrics.NumericSumAppend | sensor.py:205 | The sum of two sample lists joined together is the sum of their sums. |
| Metrics.FirstMatch | sensor.py:207-212 | The result is the value of a sample whose labels agree with every filter key, and no earlier sample agrees. The result is `None` iff no sample matches. |
| Metrics.Lookup | sensor.py:196-212 | With no samples the result is `None`. Without a filter, one sample gives its value as is, whether number or string, and two or more give the numeric sum. With a filter, the result is the first match, or `None` iff nothing matches. |
| Metrics.SingleSampleIsItsSum | sensor.py:200-205 | For a single numeric sample, returning it as is and summing it agree. |
| Metrics.RefreshTimestamp | sensor.py:432-437 | The last-list-refresh sensor shows a timestamp iff the metric value is a positive number. The timestamp is that number. |
| CaseFold.Lower | sensor.py:369-372 | Lower-casing preserves length. The result has no ASCII capital and no Kelvin sign. A character changes only if it is an ASCII capital or the Kelvin sign. |
| CaseFold.LowerMatchesWord | sensor.py:369-372 | A string lower-cases to a lower-case ASCII word iff it spells that word letter by letter in either case, with the Kelvin sign allowed for a `k`. |
| CaseFold.BlockedIff | sensor.py:369-370 | A response type counts as blocked iff it is "blocked" with each letter lower or upper case, or with the Kelvin sign for its K. |
| CaseFold.CachedIff | sensor.py:371-372 | A response type counts as cached iff it is "cached" with each letter lower or upper case. |
| CaseFold.LowerIdempotent | sensor.py:369-371 | Lower-casing an already lower-cased response type changes nothing. |
| CaseFold.BlockedSpellings | sensor.py:369 | "BLOCKED", "Blocked" and "BLOCKED" written with the Kelvin sign all read as "blocked". |
| Breakdowns.GroupSum | sensor.py:303-317 | The grouping loop never produces a duplicate bucket key. |
| Breakdowns.GroupSumTotal | sensor.py:303-317 | For all-numeric samples, the buckets add up to the total of all sample values. This holds for `by_client`, `by_type`, `by_response_type` and `by_reason`. |
| Breakdowns.GroupSumKeys | sensor.py:307-311 | There is a bucket for a label iff some sample carries that label, with a missing label counted as the default. |
| Breakdowns.GroupSumBucket | sensor.py:307-317 | Each bucket holds exactly the total of the samples carrying its label. |
| Breakdowns.GroupSumOrder | sensor.py:308-310 | Buckets appear in the order in which their labels first occur in the sample list. |
| Breakdowns.CountersAreFoldedSums | sensor.py:368-372 | `blocked` totals exactly the samples whose response type lower-cases to "blocked". `cached` totals exactly those that lower-case to "cached". |
| Breakdowns.Counters | sensor.py:368-372 | With non-negative values, the `blocked` and `cached` counters are not negative. |
| Breakdowns.FoldedBucketsAdd | sensor.py:357-360 | Adding a value to the bucket of a response type changes the total of the buckets that fold to a word only when that type folds to the word. |
| Breakdowns.FoldedSumIsFoldedBuckets | sensor.py:352-372 | Each counter equals the total of the `by_response_type` buckets whose key folds to its word. |
| Breakdowns.UnknownFeedsNeither | sensor.py:357-372 | The default response type "unknown" feeds neither counter. |
| Breakdowns.CountersBounded | sensor.py:352-372 | With non-negative values, `blocked + cached` never exceeds the total of all responses. |
| Breakdowns.ResponseBreakdown | sensor.py:345-374 | In the response loop, `by_response_type` and `by_reason` are the `GroupSum`s over their labels. Each counter equals both the matching sample total and the matching bucket total. Both breakdowns add up to the total. With non-negative values, `blocked + cached <= Σ by_response_type`. |
| Breakdowns.QueryBreakdown | sensor.py:298-319 | In the query loop, `by_client` and `by_type` are the `GroupSum`s over the `client` and `type` labels. Each adds up to the total of all values, and neither has duplicate keys. |
| Breakdowns.UnlabelledClientIsUnknown | sensor.py:308-311 | A sample without a `client` label adds its value to the "unknown" bucket. |
| Breakdowns.ByGroup | sensor.py:465-469 | The `by_group` loop never produces a duplicate group, and there are at most as many groups as samples. |
| Breakdowns.ByGroupLastWriteWins | sensor.py:465-469 | Each group maps to the value of the last sample carrying it, with "default" when unlabelled. A group no sample carries is absent. |
| Breakdowns.ByGroupOrder | sensor.py:465-469 | Groups appear in the order in which they first occur among the samples. A later sample of a group overwrites its value but not its position. |
| Breakdowns.ByGroupOverwrites | sensor.py:499-503 | Two samples of one group with values 3 and 5 show 5, not 8. This is the allowlist loop, which is identical to the denylist loop. |
| Sensors.SamplesOf | sensor.py:193-194 | A metric's samples are non-empty only if the data, the metric set and the metric are all present. In that case they are the stored samples. |
| Sensors.MetricValue | sensor.py:179-212 | `get_metric_value` gives `None` when the entity is unavailable (metrics disabled, the last poll failed, or the data holds no metric set) or the metric has no samples. Without a filter it gives the single value as is, or the numeric sum. With a filter it gives the value of the first matching sample, and `None` iff nothing matches. |
| Sensors.StringSamplesReadZero | sensor.py:203-205 | Two or more string-valued samples read as 0, not as `None`. |
| Sensors.QueryTotalAttributes | sensor.py:289-319 | The query attributes are `{}` iff the entity is unavailable. They raise `TypeError` iff some value is a string. Otherwise they are `QueryBreakdown` of the samples, so each bucket is a `GroupSum`, and both breakdowns add up to the total. |
| Sensors.QueryValueMatchesBreakdown | sensor.py:284-317 | For all-numeric samples, the query-total sensor's value equals the total of its `by_client` buckets. |
| Sensors.QueryClientBuckets | sensor.py:303-311 | With all-numeric samples, the query-total sensor has a `by_client` bucket for a client iff some sample carries that client, with unlabelled samples counted as "unknown". The bucket holds the total of those samples. |
| Sensors.ResponseTotalAttributes | sensor.py:336-374 | The response attributes are `{}` iff the entity is unavailable, and raise `TypeError` iff a value is a string. Otherwise they are `ResponseBreakdown` of the samples. `blocked` and `cached` are the folded totals, measured over the samples and over the buckets. Both breakdowns add up to the total. With non-negative values, `blocked + cached` is at most the `by_response_type` total. |
| Sensors.GroupCacheAttributes | sensor.py:454-471 | The denylist and allowlist attributes are `{}` iff the entity is unavailable, and never raise. Otherwise `by_group` is `ByGroup` of the samples, so its groups are distinct and in first-appearance order. Each group shows the value of its last sample. |
| Sensors.Join | sensor.py:148 | `", ".join` of no names is empty, and of one name is that name. Otherwise it starts with the first name, and its length is that of the first name, the separator and the join of the rest. |
| Sensors.JoinAppend | sensor.py:148 | Joining one more name appends the separator and then that name. |
| Sensors.GroupsStateOf | sensor.py:131-150 | The state is "unavailable" when the entity is unavailable (the last poll failed or left no data), and "None" for null or any falsy value. A non-empty list of strings shows the names joined by ", ", and a list with a non-string element raises `TypeError`. A non-empty string shows its own text, and `true` shows "True". Exactly the truthy numbers and objects are shown through `str()`. |
| Sensors.GroupNamedNoneLooksLikeNoGroups | sensor.py:147-148 | A single group named "None" shows the same state as an empty list. |
| Sensors.GroupsAttributes | sensor.py:152-163 | The attributes are `{}` iff the entity is unavailable. `count` is the list length for a list and 0 otherwise. `groups_list` is the list itself or `[]`. `raw_data` is the raw value, with `[]` when the field is absent. |
| Sensors.NormalizedGroupsReadAsList | sensor.py:144-161 | On data from a successful poll, the state never falls back to `str()`, and `count` is the length of the normalised list. |

## Findings

| source | as written | input that shows it | evidently intended | confidence | as-written member | corrected member |
|---|---|---|---|---|---|---|
| __init__.py:135-142 | The 0.5 s settling sleep of `enable_blocking` runs inside `async_timeout.timeout(self.timeout)`. A 200 that leaves less than 0.5 s before the deadline is cancelled during the sleep. The call then returns False and requests no refresh. | timeout 10 s, enable answered 200 after 9.6 s (`Coordinator.EnableLateAnswerExample`) | return True and refresh whenever the API answered 200 in time | medium; not executed | Coordinator.EnableBlockingAsWritten | Coordinator.EnableBlocking |
| __init__.py:156-162 | `disable_blocking` has the same settling sleep inside its deadline. | timeout 10 s, disable for `5m` answered 200 after 9.6 s (`Coordinator.DisableLateAnswerExample`) | return True and refresh whenever the API answered 200 in time | medium; not executed | Coordinator.DisableBlockingAsWritten | Coordinator.DisableBlocking |

## Left out

- Prometheus text parsing, the metrics fetch and the metric allow-list: the code has none of them. The samples (`Sensors.Snapshot.prometheus`) and the metrics-enabled flag (`Sensors.CoordinatorView.prometheusEnabled`) are inputs, and metric names are parameters.
- Home Assistant's `DataUpdateCoordinator`: keeping the last good data, `last_update_success`, and the debouncing of `async_request_refresh`. The view's `lastUpdateSuccess` and `data` are inputs. An action reports only whether it requests a refresh.
- How long the follow-up refresh takes inside the action's deadline: it belongs to the coordinator framework, so the refresh is treated as instantaneous.
- Async scheduling, sockets and clocks. Times are abstract milliseconds in `Http.Exchange`. An event exactly at the deadline counts as a timeout, because the two timers' order is not determined.
- Failures while decoding a response body (`ContentTypeError`, invalid JSON): the exchange carries an already decoded body.
- Floating-point JSON numbers and sample values: numbers are integers.
- The text of exception and log messages: failures are classified by kind only.
- The JSON key order of the status object: it is a map.
- Host, port and base URL composition: requests carry the path below `http://host:port`.
- `async_setup_entry`, unloading and reloading, `config_flow.py`, `button.py`, `switch.py` and `const.py`: setup, forms, fixed arguments and constants. Note that `config_flow.py` folds its invalid-response error into "cannot connect".
- The status and auto-enable-timer sensors, and entity names, icons, unique ids and device or state classes: these are presentation only.
- `Sensors.GroupsStateOf`: for a truthy number or non-empty object it returns `StrOf(raw)` instead of the text of Python's `str()`, because the model does not render Python's number and dict formatting.
- `CaseFold.Lower`: it lower-cases only ASCII capitals and the Kelvin sign. Python's full Unicode mapping is not modelled. For comparisons with the ASCII words "blocked" and "cached" the two agree.
