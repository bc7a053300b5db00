/** Metric samples as the sensors receive them, and the scalar lookup
    `get_metric_value` applied to the samples of one metric. */
module Metrics {
  import opened Wrappers

  /** A sample value: a number, or the raw token kept when it was not numeric. */
  datatype Value = Num(n: int) | Str(s: string)

  datatype Sample = Sample(value: Value, labels: map<string, string>)

  /** Samples grouped by metric name, in encounter order. */
  type MetricSet = map<string, seq<Sample>>

  /** `labels.get(key, default)`. */
  function LabelOr(s: Sample, key: string, default: string): string {
    if key in s.labels then s.labels[key] else default
  }

  predicate AllNumeric(samples: seq<Sample>) {
    forall i :: 0 <= i < |samples| ==> samples[i].value.Num?
  }

  /** The sum of the numeric values; string values are skipped, so with no
      negative number the sum is not negative. */
  function NumericSum(samples: seq<Sample>): (r: int)
    ensures (forall i :: 0 <= i < |samples| ==> samples[i].value.Num? ==> samples[i].value.n >= 0) ==> r >= 0
    decreases |samples|
  {
    if samples == [] then 0
    else
      var last := samples[|samples| - 1];
      NumericSum(samples[..|samples| - 1]) + (if last.value.Num? then last.value.n else 0)
  }

  /** Splitting the samples splits the sum: the total does not depend on
      where the list is cut. */
  lemma {:induction false} NumericSumAppend(a: seq<Sample>, b: seq<Sample>)
    ensures NumericSum(a + b) == NumericSum(a) + NumericSum(b)
    decreases |b|
  {
    if b != [] {
      var n := |b| - 1;
      assert (a + b)[..|a + b| - 1] == a + b[..n];
      NumericSumAppend(a, b[..n]);
    } else {
      assert a + b == a;
    }
  }

  /** A list holding only string values sums to 0, not to "no value". */
  lemma {:induction false} NumericSumOfStrings(samples: seq<Sample>)
    requires forall i :: 0 <= i < |samples| ==> samples[i].value.Str?
    ensures NumericSum(samples) == 0
    decreases |samples|
  {
    if samples != [] {
      NumericSumOfStrings(samples[..|samples| - 1]);
    }
  }

  /** Every filter key is present among the sample's labels with the same value. */
  predicate Matches(s: Sample, filter: map<string, string>) {
    forall k :: k in filter ==> k in s.labels && s.labels[k] == filter[k]
  }

  /** The value of the first sample, in list order, that matches the filter. */
  function FirstMatch(samples: seq<Sample>, filter: map<string, string>): (r: Option<Value>)
    ensures r.None? <==> forall i :: 0 <= i < |samples| ==> !Matches(samples[i], filter)
    ensures r.Some? ==> exists i :: 0 <= i < |samples| && Matches(samples[i], filter) &&
                                    r.value == samples[i].value &&
                                    forall j :: 0 <= j < i ==> !Matches(samples[j], filter)
  {
    if samples == [] then None
    else if Matches(samples[0], filter) then Some(samples[0].value)
    else
      var r := FirstMatch(samples[1..], filter);
      assert forall i :: 1 <= i < |samples| ==> samples[i] == samples[1..][i - 1];
      r
  }

  /** `get_metric_value` once the entity is available and the metric's samples
      are in hand. An empty `filter` stands for both `None` and `{}`. */
  function Lookup(samples: seq<Sample>, filter: map<string, string>): (r: Option<Value>)
    ensures samples == [] ==> r.None?
    ensures filter == map[] && |samples| == 1 ==> r == Some(samples[0].value)
    ensures filter == map[] && |samples| >= 2 ==> r == Some(Num(NumericSum(samples)))
    ensures filter != map[] && r.Some? ==>
              exists i :: 0 <= i < |samples| && Matches(samples[i], filter) &&
                          r.value == samples[i].value &&
                          forall j :: 0 <= j < i ==> !Matches(samples[j], filter)
    ensures filter != map[] && r.None? <==>
              filter != map[] && forall i :: 0 <= i < |samples| ==> !Matches(samples[i], filter)
  {
    if samples == [] then None
    else if filter == map[] then
      if |samples| == 1 then Some(samples[0].value) else Some(Num(NumericSum(samples)))
    else FirstMatch(samples, filter)
  }

  /** With no filter, a single numeric sample reads the same whether it is
      returned as is or summed. */
  lemma SingleSampleIsItsSum(s: Sample)
    requires s.value.Num?
    ensures Lookup([s], map[]) == Some(Num(NumericSum([s])))
  {
  }

  /** `BlockyLastListRefreshSensor.native_value`: a Unix timestamp (seconds)
      only for a positive numeric metric value. */
  function RefreshTimestamp(v: Option<Value>): (r: Option<int>)
    ensures r.Some? <==> v.Some? && v.value.Num? && v.value.n > 0
    ensures r.Some? ==> r.value == v.value.n
  {
    match v
    case Some(Num(n)) => if n > 0 then Some(n) else None
    case _ => None
  }
}
