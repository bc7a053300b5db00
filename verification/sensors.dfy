/** The sensor entities' views over the coordinator's data: availability,
    the scalar metric value, the breakdown attributes, and the disabled-groups
    sensor. */
module Sensors {
  import opened Wrappers
  import opened Json
  import opened Dict
  import opened Metrics
  import opened Breakdowns
  import Coordinator

  /** The coordinator's data: the normalised status object and, when present
      under the "prometheus" key, the metric samples. */
  datatype Snapshot = Snapshot(status: Object, prometheus: Option<MetricSet>)

  /** What an entity reads from its coordinator. */
  datatype CoordinatorView = CoordinatorView(prometheusEnabled: bool, lastUpdateSuccess: bool,
                                             data: Option<Snapshot>)

  /** `BlockyPrometheusBaseSensor.available`: a metric sensor is available
      only when the status sensor is, metrics are enabled and the data holds
      metric samples. */
  predicate MetricsAvailable(c: CoordinatorView) {
    c.prometheusEnabled && c.lastUpdateSuccess && c.data.Some? && c.data.value.prometheus.Some?
  }

  /** `data.get("prometheus", {}).get(metric, [])`: the metric's samples, and
      no samples when the data, the metric set or the metric is missing. */
  function SamplesOf(c: CoordinatorView, metric: string): (r: seq<Sample>)
    ensures r != [] ==> c.data.Some? && c.data.value.prometheus.Some? && metric in c.data.value.prometheus.value
    ensures c.data.Some? && c.data.value.prometheus.Some? && metric in c.data.value.prometheus.value ==>
              r == c.data.value.prometheus.value[metric]
  {
    if c.data.Some? && c.data.value.prometheus.Some? && metric in c.data.value.prometheus.value
    then c.data.value.prometheus.value[metric]
    else []
  }

  /** `get_metric_value`: `None` when unavailable or without samples; with no
      filter the single value as is, or the numeric sum of two or more; with a
      filter the first matching sample's value, `None` when nothing matches. */
  function MetricValue(c: CoordinatorView, metric: string, filter: map<string, string>): (r: Option<Value>)
    ensures !MetricsAvailable(c) || SamplesOf(c, metric) == [] ==> r.None?
    ensures MetricsAvailable(c) && filter == map[] && |SamplesOf(c, metric)| == 1 ==>
              r == Some(SamplesOf(c, metric)[0].value)
    ensures MetricsAvailable(c) && filter == map[] && |SamplesOf(c, metric)| >= 2 ==>
              r == Some(Num(NumericSum(SamplesOf(c, metric))))
    ensures r.Some? && filter != map[] ==>
              exists i :: 0 <= i < |SamplesOf(c, metric)| && Matches(SamplesOf(c, metric)[i], filter) &&
                          r.value == SamplesOf(c, metric)[i].value &&
                          forall j :: 0 <= j < i ==> !Matches(SamplesOf(c, metric)[j], filter)
    ensures MetricsAvailable(c) && filter != map[] ==>
              (r.None? <==> forall i :: 0 <= i < |SamplesOf(c, metric)| ==> !Matches(SamplesOf(c, metric)[i], filter))
  {
    if !MetricsAvailable(c) then None else Lookup(SamplesOf(c, metric), filter)
  }

  /** Two or more string-valued samples read as 0, not as "no value". */
  lemma StringSamplesReadZero(c: CoordinatorView, metric: string)
    requires MetricsAvailable(c) && |SamplesOf(c, metric)| >= 2
    requires forall i :: 0 <= i < |SamplesOf(c, metric)| ==> SamplesOf(c, metric)[i].value.Str?
    ensures MetricValue(c, metric, map[]) == Some(Num(0))
  {
    NumericSumOfStrings(SamplesOf(c, metric));
  }

  /** The outcome of an `extra_state_attributes` property: `{}` when the entity
      is unavailable, the attributes, or the `TypeError` that `0 + "text"`
      raises when a summed sample value is a string. */
  datatype Attributes<+T> = NoAttributes | Attrs(value: T) | RaisesTypeError

  /** The query-total sensor's `by_client` and `by_type` breakdowns. */
  function QueryTotalAttributes(c: CoordinatorView, metric: string): (r: Attributes<QueryAttrs>)
    ensures r.NoAttributes? <==> !MetricsAvailable(c)
    ensures r.RaisesTypeError? <==> MetricsAvailable(c) && !AllNumeric(SamplesOf(c, metric))
    ensures r.Attrs? ==> r.value == QueryBreakdown(SamplesOf(c, metric))
    ensures r.Attrs? ==> Sum(r.value.byClient) == NumericSum(SamplesOf(c, metric))
    ensures r.Attrs? ==> Sum(r.value.byType) == NumericSum(SamplesOf(c, metric))
  {
    if !MetricsAvailable(c) then NoAttributes
    else if !AllNumeric(SamplesOf(c, metric)) then RaisesTypeError
    else Attrs(QueryBreakdown(SamplesOf(c, metric)))
  }

  /** The query-total value and its breakdown agree: with all-numeric samples
      the sensor's value is the total of the `by_client` buckets. */
  lemma QueryValueMatchesBreakdown(c: CoordinatorView, metric: string)
    requires MetricsAvailable(c) && SamplesOf(c, metric) != [] && AllNumeric(SamplesOf(c, metric))
    ensures QueryTotalAttributes(c, metric).Attrs?
    ensures MetricValue(c, metric, map[]) == Some(Num(Sum(QueryTotalAttributes(c, metric).value.byClient)))
  {
    var s := SamplesOf(c, metric);
    if |s| == 1 {
      assert s[..|s| - 1] == [];
      assert NumericSum(s) == s[0].value.n;
    }
  }

  /** Each `by_client` bucket of the query-total sensor is there exactly when
      some sample carries that client (or none, for "unknown"), and holds the
      total of those samples. */
  lemma QueryClientBuckets(c: CoordinatorView, metric: string, client: string)
    requires MetricsAvailable(c) && AllNumeric(SamplesOf(c, metric))
    ensures QueryTotalAttributes(c, metric).Attrs?
    ensures Get(QueryTotalAttributes(c, metric).value.byClient, client).Some? <==>
              Carries(SamplesOf(c, metric), "client", Unknown, client)
    ensures Carries(SamplesOf(c, metric), "client", Unknown, client) ==>
              Get(QueryTotalAttributes(c, metric).value.byClient, client).value ==
              SumWhere(SamplesOf(c, metric), "client", Unknown, client)
  {
    var s := SamplesOf(c, metric);
    GroupSumKeys(s, "client", Unknown, client);
    if Carries(s, "client", Unknown, client) {
      GroupSumBucket(s, "client", Unknown, client);
    }
  }

  /** The response-total sensor's breakdowns and `blocked`/`cached` counters. */
  function ResponseTotalAttributes(c: CoordinatorView, metric: string): (r: Attributes<ResponseAttrs>)
    ensures r.NoAttributes? <==> !MetricsAvailable(c)
    ensures r.RaisesTypeError? <==> MetricsAvailable(c) && !AllNumeric(SamplesOf(c, metric))
    ensures r.Attrs? ==> r.value == ResponseBreakdown(SamplesOf(c, metric))
    ensures r.Attrs? ==> r.value.blocked == FoldedSum(SamplesOf(c, metric), "blocked")
    ensures r.Attrs? ==> r.value.cached == FoldedSum(SamplesOf(c, metric), "cached")
    ensures r.Attrs? ==> r.value.blocked == FoldedBuckets(r.value.byResponseType, "blocked")
    ensures r.Attrs? ==> r.value.cached == FoldedBuckets(r.value.byResponseType, "cached")
    ensures r.Attrs? ==> Sum(r.value.byResponseType) == NumericSum(SamplesOf(c, metric))
    ensures r.Attrs? ==> Sum(r.value.byReason) == NumericSum(SamplesOf(c, metric))
    ensures r.Attrs? && (forall i :: 0 <= i < |SamplesOf(c, metric)| ==> SamplesOf(c, metric)[i].value.n >= 0) ==>
              r.value.blocked + r.value.cached <= Sum(r.value.byResponseType)
  {
    if !MetricsAvailable(c) then NoAttributes
    else if !AllNumeric(SamplesOf(c, metric)) then RaisesTypeError
    else Attrs(ResponseBreakdown(SamplesOf(c, metric)))
  }

  /** The denylist and allowlist cache sensors' `by_group` map: each group
      shows the value of its last sample; string values are stored, not summed. */
  function GroupCacheAttributes(c: CoordinatorView, metric: string): (r: Attributes<Dict<Value>>)
    ensures r.NoAttributes? <==> !MetricsAvailable(c)
    ensures !r.RaisesTypeError?
    ensures r.Attrs? ==> r.value == ByGroup(SamplesOf(c, metric))
    ensures r.Attrs? ==> forall g :: Get(r.value, g) == LastOfGroup(SamplesOf(c, metric), g)
  {
    if !MetricsAvailable(c) then NoAttributes
    else
      var s := SamplesOf(c, metric);
      assert forall g :: Get(ByGroup(s), g) == LastOfGroup(s, g) by {
        forall g {
          ByGroupLastWriteWins(s, g);
        }
      }
      Attrs(ByGroup(s))
  }

  // ---------------------------------------------------------------------------
  // Disabled-groups sensor
  // ---------------------------------------------------------------------------

  /** `BlockyDisabledGroupsSensor.available`: the last poll succeeded and left
      data behind. */
  predicate StatusAvailable(c: CoordinatorView) {
    c.lastUpdateSuccess && c.data.Some?
  }

  /** The sensor's state: a text the model renders, the `str()` of a truthy
      number or object (Python's rendering of which is not modelled), or the
      `TypeError` that `", ".join` raises on a non-string list element. */
  datatype GroupsState = Shown(text: string) | StrOf(raw: JsonValue) | JoinRaisesTypeError

  predicate AllStrings(items: seq<JsonValue>) {
    forall i :: 0 <= i < |items| ==> items[i].JStr?
  }

  /** `sep.join(names)`: the names in order with `sep` between neighbours;
      it starts with the first name. */
  function Join(names: seq<string>, sep: string): (r: string)
    ensures names == [] ==> r == ""
    ensures |names| == 1 ==> r == names[0]
    ensures names != [] ==> names[0] <= r
    ensures |names| > 1 ==> |r| == |names[0]| + |sep| + |Join(names[1..], sep)|
  {
    if names == [] then ""
    else if |names| == 1 then names[0]
    else names[0] + sep + Join(names[1..], sep)
  }

  /** Joining one more name appends the separator and that name: the join
      read from the right, independent of how `Join` recurses. */
  lemma {:induction false} JoinAppend(names: seq<string>, x: string, sep: string)
    requires names != []
    ensures Join(names + [x], sep) == Join(names, sep) + sep + x
    decreases |names|
  {
    var all := names + [x];
    if |names| == 1 {
      assert all[1..] == [x];
      assert Join(all, sep) == names[0] + sep + Join([x], sep);
    } else {
      assert all[1..] == names[1..] + [x];
      JoinAppend(names[1..], x, sep);
      var head, rest := names[0], Join(names[1..], sep);
      assert Join(all, sep) == head + sep + (rest + sep + x);
      assert Join(names, sep) == head + sep + rest;
      assert head + sep + (rest + sep + x) == (head + sep + rest) + sep + x;
    }
  }

  /** The texts of a list of JSON strings. */
  function Names(items: seq<JsonValue>): (r: seq<string>)
    requires AllStrings(items)
    ensures |r| == |items|
    ensures forall i :: 0 <= i < |items| ==> r[i] == items[i].s
  {
    seq(|items|, i requires 0 <= i < |items| => items[i].s)
  }

  /** The `disabledGroups` field as the sensor reads it, `None` when absent. */
  function GroupsField(c: CoordinatorView): JsonValue
    requires StatusAvailable(c)
  {
    GetOrNull(c.data.value.status, Coordinator.DisabledGroupsKey)
  }

  /** `BlockyDisabledGroupsSensor.state`: "unavailable", the comma-joined
      names of a non-empty list of strings, the text of a non-empty string,
      "True", the `str()` of a truthy number or object, and "None" for every
      falsy value. */
  function GroupsStateOf(c: CoordinatorView): (r: GroupsState)
    ensures !StatusAvailable(c) ==> r == Shown("unavailable")
    ensures StatusAvailable(c) && GroupsField(c).JList? && GroupsField(c).items != [] &&
            AllStrings(GroupsField(c).items) ==>
              r == Shown(Join(Names(GroupsField(c).items), ", "))
    ensures StatusAvailable(c) && GroupsField(c).JStr? && GroupsField(c).s != "" ==> r == Shown(GroupsField(c).s)
    ensures StatusAvailable(c) && GroupsField(c) == JBool(true) ==> r == Shown("True")
    ensures r.StrOf? <==> StatusAvailable(c) && Truthy(GroupsField(c)) && (GroupsField(c).JInt? || GroupsField(c).JObject?)
    ensures StatusAvailable(c) && !Truthy(GetOrNull(c.data.value.status, Coordinator.DisabledGroupsKey)) ==>
              r == Shown("None")
    ensures r.JoinRaisesTypeError? <==>
              StatusAvailable(c) && GetOrNull(c.data.value.status, Coordinator.DisabledGroupsKey).JList? &&
              !AllStrings(GetOrNull(c.data.value.status, Coordinator.DisabledGroupsKey).items)
    ensures r.StrOf? ==> StatusAvailable(c) && r.raw == c.data.value.status[Coordinator.DisabledGroupsKey] &&
                         Truthy(r.raw) && !r.raw.JList? && !r.raw.JStr? && !r.raw.JBool?
  {
    if !StatusAvailable(c) then Shown("unavailable")
    else
      var groups := GetOrNull(c.data.value.status, Coordinator.DisabledGroupsKey);
      match groups
      case JNull => Shown("None")
      case JList(items) =>
        if !AllStrings(items) then JoinRaisesTypeError
        else if items == [] then Shown("None")
        else Shown(Join(Names(items), ", "))
      case JStr(text) => if text == "" then Shown("None") else Shown(text)
      case JBool(b) => if b then Shown("True") else Shown("None")
      case JInt(i) => if i == 0 then Shown("None") else StrOf(groups)
      case JObject(fields) => if fields == map[] then Shown("None") else StrOf(groups)
  }

  /** A single group named "None" shows the same state as no group at all. */
  lemma GroupNamedNoneLooksLikeNoGroups(c: CoordinatorView, d: CoordinatorView)
    requires StatusAvailable(c) && StatusAvailable(d)
    requires c.data.value.status == map[Coordinator.DisabledGroupsKey := JList([JStr("None")])]
    requires d.data.value.status == map[Coordinator.DisabledGroupsKey := JList([])]
    ensures GroupsStateOf(c) == GroupsStateOf(d) == Shown("None")
  {
  }

  /** The disabled-groups sensor's attributes: the list (or `[]`), its length
      (or 0) and the raw value. */
  datatype GroupsAttrs = NoGroupsAttrs | GroupsAttrs(groupsList: seq<JsonValue>, count: nat, raw: JsonValue)

  /** `BlockyDisabledGroupsSensor.extra_state_attributes`; an absent field
      reads as `[]`. */
  function GroupsAttributes(c: CoordinatorView): (r: GroupsAttrs)
    ensures r.NoGroupsAttrs? <==> !StatusAvailable(c)
    ensures r.GroupsAttrs? ==> r.count == |r.groupsList|
    ensures r.GroupsAttrs? && r.raw.JList? ==> r.groupsList == r.raw.items
    ensures r.GroupsAttrs? && !r.raw.JList? ==> r.groupsList == [] && r.count == 0
    ensures r.GroupsAttrs? && Coordinator.DisabledGroupsKey !in c.data.value.status ==> r.raw == JList([])
    ensures r.GroupsAttrs? && Coordinator.DisabledGroupsKey in c.data.value.status ==>
              r.raw == c.data.value.status[Coordinator.DisabledGroupsKey]
  {
    if !StatusAvailable(c) then NoGroupsAttrs
    else
      var status := c.data.value.status;
      var groups := if Coordinator.DisabledGroupsKey in status then status[Coordinator.DisabledGroupsKey]
                    else JList([]);
      if groups.JList? then GroupsAttrs(groups.items, |groups.items|, groups)
      else GroupsAttrs([], 0, groups)
  }

  /** On data the coordinator has normalised, the sensor never falls back to
      `str()`: its state is a list rendering (or the join's `TypeError`) and its
      count is the list length. */
  lemma NormalizedGroupsReadAsList(c: CoordinatorView, payload: Object)
    requires StatusAvailable(c) && c.data.value.status == Coordinator.NormalizeStatus(payload)
    ensures !GroupsStateOf(c).StrOf?
    ensures GroupsAttributes(c).count == |c.data.value.status[Coordinator.DisabledGroupsKey].items|
  {
    assert c.data.value.status[Coordinator.DisabledGroupsKey].JList?;
  }
}
