/** The folds behind the sensors' extra state attributes: per-label sums
    (`by_client`, `by_type`, `by_response_type`, `by_reason`), the
    case-insensitive `blocked`/`cached` counters, and the last-write-wins
    `by_group` map. */
module Breakdowns {
  import opened Wrappers
  import opened Dict
  import opened Metrics
  import opened CaseFold

  // ---------------------------------------------------------------------------
  // Per-label sums
  // ---------------------------------------------------------------------------

  /** The bucket of each sample, in list order. */
  function BucketSeq(samples: seq<Sample>, key: string, default: string): (r: seq<string>)
    ensures |r| == |samples|
    ensures forall i :: 0 <= i < |samples| ==> r[i] == LabelOr(samples[i], key, default)
  {
    seq(|samples|, i requires 0 <= i < |samples| => LabelOr(samples[i], key, default))
  }

  /** Some sample's `key` label (or `default`) is `bucket`. */
  predicate Carries(samples: seq<Sample>, key: string, default: string, bucket: string)
    decreases |samples|
  {
    samples != [] &&
    (LabelOr(samples[|samples| - 1], key, default) == bucket ||
     Carries(samples[..|samples| - 1], key, default, bucket))
  }

  /** The distinct elements of `xs` in order of first appearance. */
  function FirstAppearances(xs: seq<string>): seq<string>
    decreases |xs|
  {
    if xs == [] then []
    else
      var seen := FirstAppearances(xs[..|xs| - 1]);
      if xs[|xs| - 1] in seen then seen else seen + [xs[|xs| - 1]]
  }

  /** The total of the samples whose `key` label (or `default`) is `bucket`:
      the reference the grouped sums are measured against. */
  function SumWhere(samples: seq<Sample>, key: string, default: string, bucket: string): int
    decreases |samples|
  {
    if samples == [] then 0
    else
      var last := samples[|samples| - 1];
      SumWhere(samples[..|samples| - 1], key, default, bucket) +
      (if LabelOr(last, key, default) == bucket && last.value.Num? then last.value.n else 0)
  }

  /** The loop that groups samples by a label: each value is added to the
      bucket of its `key` label, `default` when the label is absent. */
  function GroupSum(samples: seq<Sample>, key: string, default: string): (r: Dict<int>)
    requires AllNumeric(samples)
    ensures WellFormed(r)
    decreases |samples|
  {
    if samples == [] then []
    else
      var n := |samples| - 1;
      assert AllNumeric(samples[..n]);
      Add(GroupSum(samples[..n], key, default), LabelOr(samples[n], key, default), samples[n].value.n)
  }

  /** The buckets add up to the total of all sample values. */
  lemma {:induction false} GroupSumTotal(samples: seq<Sample>, key: string, default: string)
    requires AllNumeric(samples)
    ensures Sum(GroupSum(samples, key, default)) == NumericSum(samples)
    decreases |samples|
  {
    if samples != [] {
      var n := |samples| - 1;
      assert AllNumeric(samples[..n]);
      GroupSumTotal(samples[..n], key, default);
      SumAdd(GroupSum(samples[..n], key, default), LabelOr(samples[n], key, default), samples[n].value.n);
    }
  }

  /** There is a bucket for a label exactly when some sample carries it. */
  lemma {:induction false} GroupSumKeys(samples: seq<Sample>, key: string, default: string, bucket: string)
    requires AllNumeric(samples)
    ensures bucket in Keys(GroupSum(samples, key, default)) <==> Carries(samples, key, default, bucket)
    decreases |samples|
  {
    if samples != [] {
      var n := |samples| - 1;
      assert AllNumeric(samples[..n]);
      GroupSumKeys(samples[..n], key, default, bucket);
    }
  }

  /** Each bucket holds exactly the total of the samples carrying its label. */
  lemma {:induction false} GroupSumBucket(samples: seq<Sample>, key: string, default: string, bucket: string)
    requires AllNumeric(samples)
    requires Carries(samples, key, default, bucket)
    ensures Get(GroupSum(samples, key, default), bucket).Some?
    ensures Get(GroupSum(samples, key, default), bucket).value == SumWhere(samples, key, default, bucket)
    decreases |samples|
  {
    var n := |samples| - 1;
    assert AllNumeric(samples[..n]);
    var prev := GroupSum(samples[..n], key, default);
    var lbl := LabelOr(samples[n], key, default);
    var v := samples[n].value.n;
    assert GroupSum(samples, key, default) == Add(prev, lbl, v);
    var before := if Carries(samples[..n], key, default, bucket) then SumWhere(samples[..n], key, default, bucket) else 0;
    assert SumWhere(samples, key, default, bucket) == before + (if lbl == bucket then v else 0) by {
      if !Carries(samples[..n], key, default, bucket) {
        NoBucketNoSum(samples[..n], key, default, bucket);
      }
    }
    GroupSumKeys(samples[..n], key, default, bucket);
    if Carries(samples[..n], key, default, bucket) {
      GroupSumBucket(samples[..n], key, default, bucket);
    } else {
      assert bucket == lbl;
    }
    GetAdd(prev, lbl, v, bucket);
  }

  /** A label no sample carries has a zero total. */
  lemma {:induction false} NoBucketNoSum(samples: seq<Sample>, key: string, default: string, bucket: string)
    requires !Carries(samples, key, default, bucket)
    ensures SumWhere(samples, key, default, bucket) == 0
    decreases |samples|
  {
    if samples != [] {
      var n := |samples| - 1;
      NoBucketNoSum(samples[..n], key, default, bucket);
    }
  }

  /** The buckets appear in the order their labels first occur. */
  lemma {:induction false} GroupSumOrder(samples: seq<Sample>, key: string, default: string)
    requires AllNumeric(samples)
    ensures Keys(GroupSum(samples, key, default)) == FirstAppearances(BucketSeq(samples, key, default))
    decreases |samples|
  {
    if samples != [] {
      var n := |samples| - 1;
      assert AllNumeric(samples[..n]);
      GroupSumOrder(samples[..n], key, default);
      assert BucketSeq(samples, key, default)[..n] == BucketSeq(samples[..n], key, default);
    }
  }

  // ---------------------------------------------------------------------------
  // Response breakdown
  // ---------------------------------------------------------------------------

  const ResponseTypeKey: string := "response_type"
  const ReasonKey: string := "reason"
  const Unknown: string := "unknown"

  /** The response type of a sample, "unknown" when unlabelled. */
  function ResponseType(s: Sample): string {
    LabelOr(s, ResponseTypeKey, Unknown)
  }

  /** The `blocked` and `cached` counters of the response loop: a value goes
      to `blocked` when its response type lower-cases to "blocked", else to
      `cached` when it lower-cases to "cached", else nowhere. */
  function Counters(samples: seq<Sample>): (r: (int, int))
    requires AllNumeric(samples)
    ensures (forall i :: 0 <= i < |samples| ==> samples[i].value.n >= 0) ==> r.0 >= 0 && r.1 >= 0
    decreases |samples|
  {
    if samples == [] then (0, 0)
    else
      var n := |samples| - 1;
      assert AllNumeric(samples[..n]);
      var (blocked, cached) := Counters(samples[..n]);
      var folded := Lower(ResponseType(samples[n]));
      if folded == "blocked" then (blocked + samples[n].value.n, cached)
      else if folded == "cached" then (blocked, cached + samples[n].value.n)
      else (blocked, cached)
  }

  /** The total of the samples whose response type lower-cases to `word`:
      the reference the counters are measured against. */
  function FoldedSum(samples: seq<Sample>, word: string): int
    decreases |samples|
  {
    if samples == [] then 0
    else
      var last := samples[|samples| - 1];
      FoldedSum(samples[..|samples| - 1], word) +
      (if Lower(ResponseType(last)) == word && last.value.Num? then last.value.n else 0)
  }

  /** A sample feeds `blocked` exactly when its response type lower-cases to
      "blocked", and `cached` exactly when it lower-cases to "cached". */
  lemma {:induction false} CountersAreFoldedSums(samples: seq<Sample>)
    requires AllNumeric(samples)
    ensures Counters(samples).0 == FoldedSum(samples, "blocked")
    ensures Counters(samples).1 == FoldedSum(samples, "cached")
    decreases |samples|
  {
    if samples != [] {
      var n := |samples| - 1;
      assert AllNumeric(samples[..n]);
      CountersAreFoldedSums(samples[..n]);
    }
  }

  /** The total of the buckets whose key lower-cases to `word`. */
  function FoldedBuckets(d: Dict<int>, word: string): int {
    if d == [] then 0
    else (if Lower(d[0].0) == word then d[0].1 else 0) + FoldedBuckets(d[1..], word)
  }

  lemma {:induction false} FoldedBucketsAdd(d: Dict<int>, k: string, v: int, word: string)
    requires WellFormed(d)
    ensures FoldedBuckets(Add(d, k, v), word) == FoldedBuckets(d, word) + (if Lower(k) == word then v else 0)
    decreases |d|
  {
    if d != [] && d[0].0 != k {
      FoldedBucketsAdd(d[1..], k, v, word);
      assert Add(d, k, v)[1..] == Add(d[1..], k, v);
    }
  }

  /** The samples whose response type lower-cases to `word` total the same as
      the `by_response_type` buckets whose key lower-cases to `word`. */
  lemma {:induction false} FoldedSumIsFoldedBuckets(samples: seq<Sample>, word: string)
    requires AllNumeric(samples)
    ensures FoldedSum(samples, word) == FoldedBuckets(GroupSum(samples, ResponseTypeKey, Unknown), word)
    decreases |samples|
  {
    if samples != [] {
      var n := |samples| - 1;
      assert AllNumeric(samples[..n]);
      FoldedSumIsFoldedBuckets(samples[..n], word);
      FoldedBucketsAdd(GroupSum(samples[..n], ResponseTypeKey, Unknown), ResponseType(samples[n]),
                       samples[n].value.n, word);
    }
  }

  /** The default response type feeds neither counter. */
  lemma UnknownFeedsNeither()
    ensures Lower(Unknown) != "blocked" && Lower(Unknown) != "cached"
  {
    assert Lower(Unknown)[0] == 'u';
  }

  /** With non-negative values, the two counters together never exceed the
      total of all responses. */
  lemma {:induction false} CountersBounded(samples: seq<Sample>)
    requires AllNumeric(samples)
    ensures (forall i :: 0 <= i < |samples| ==> samples[i].value.n >= 0) ==>
              FoldedSum(samples, "blocked") + FoldedSum(samples, "cached") <= NumericSum(samples)
    decreases |samples|
  {
    if samples != [] {
      var n := |samples| - 1;
      assert AllNumeric(samples[..n]);
      CountersBounded(samples[..n]);
      if forall i :: 0 <= i < |samples| ==> samples[i].value.n >= 0 {
        assert forall i :: 0 <= i < n ==> samples[..n][i].value.n >= 0;
      }
    }
  }

  /** The attributes of the response-total sensor. */
  datatype ResponseAttrs = ResponseAttrs(byResponseType: Dict<int>, byReason: Dict<int>,
                                         blocked: int, cached: int)

  /** The response loop: per-response-type and per-reason totals plus the two
      counters. Each counter is the total of the samples, and equally of the
      `by_response_type` buckets, whose response type lower-cases to its word;
      the buckets of both breakdowns add up to the total; and with
      non-negative values the counters stay within the per-response-type total. */
  function ResponseBreakdown(samples: seq<Sample>): (r: ResponseAttrs)
    requires AllNumeric(samples)
    ensures r.byResponseType == GroupSum(samples, ResponseTypeKey, Unknown)
    ensures r.byReason == GroupSum(samples, ReasonKey, Unknown)
    ensures r.blocked == FoldedSum(samples, "blocked")
    ensures r.cached == FoldedSum(samples, "cached")
    ensures r.blocked == FoldedBuckets(r.byResponseType, "blocked")
    ensures r.cached == FoldedBuckets(r.byResponseType, "cached")
    ensures Sum(r.byResponseType) == NumericSum(samples)
    ensures Sum(r.byReason) == NumericSum(samples)
    ensures (forall i :: 0 <= i < |samples| ==> samples[i].value.n >= 0) ==>
              r.blocked + r.cached <= Sum(r.byResponseType)
  {
    CountersAreFoldedSums(samples);
    FoldedSumIsFoldedBuckets(samples, "blocked");
    FoldedSumIsFoldedBuckets(samples, "cached");
    GroupSumTotal(samples, ResponseTypeKey, Unknown);
    GroupSumTotal(samples, ReasonKey, Unknown);
    CountersBounded(samples);
    var (blocked, cached) := Counters(samples);
    ResponseAttrs(GroupSum(samples, ResponseTypeKey, Unknown), GroupSum(samples, ReasonKey, Unknown),
                  blocked, cached)
  }

  // ---------------------------------------------------------------------------
  // Query breakdown
  // ---------------------------------------------------------------------------

  datatype QueryAttrs = QueryAttrs(byClient: Dict<int>, byType: Dict<int>)

  /** The query loop: per-client and per-DNS-type totals, "unknown" for a
      missing label. Both breakdowns add up to the total of all values. */
  function QueryBreakdown(samples: seq<Sample>): (r: QueryAttrs)
    requires AllNumeric(samples)
    ensures r.byClient == GroupSum(samples, "client", Unknown)
    ensures r.byType == GroupSum(samples, "type", Unknown)
    ensures Sum(r.byClient) == NumericSum(samples)
    ensures Sum(r.byType) == NumericSum(samples)
    ensures WellFormed(r.byClient) && WellFormed(r.byType)
  {
    GroupSumTotal(samples, "client", Unknown);
    GroupSumTotal(samples, "type", Unknown);
    QueryAttrs(GroupSum(samples, "client", Unknown), GroupSum(samples, "type", Unknown))
  }

  /** A sample without a `client` label is counted under "unknown". */
  lemma UnlabelledClientIsUnknown(samples: seq<Sample>, v: int)
    requires AllNumeric(samples)
    ensures Get(QueryBreakdown(samples + [Sample(Num(v), map[])]).byClient, Unknown).Some?
    ensures Get(QueryBreakdown(samples + [Sample(Num(v), map[])]).byClient, Unknown).value ==
            SumWhere(samples, "client", Unknown, Unknown) + v
  {
    var all := samples + [Sample(Num(v), map[])];
    assert all[..|all| - 1] == samples;
    GroupSumBucket(all, "client", Unknown, Unknown);
  }

  // ---------------------------------------------------------------------------
  // Group breakdown (denylist / allowlist caches)
  // ---------------------------------------------------------------------------

  /** The group of a sample, "default" when unlabelled. */
  function Group(s: Sample): string {
    LabelOr(s, "group", "default")
  }

  /** The `by_group` loop: each sample assigns its value to its group, so a
      later sample of the same group overwrites an earlier one. */
  function ByGroup(samples: seq<Sample>): (r: Dict<Value>)
    ensures WellFormed(r)
    ensures |r| <= |samples|
    decreases |samples|
  {
    if samples == [] then []
    else
      var n := |samples| - 1;
      Put(ByGroup(samples[..n]), Group(samples[n]), samples[n].value)
  }

  /** The value of the last sample of group `g`: the reference for `by_group`. */
  function LastOfGroup(samples: seq<Sample>, g: string): Option<Value>
    decreases |samples|
  {
    if samples == [] then None
    else if Group(samples[|samples| - 1]) == g then Some(samples[|samples| - 1].value)
    else LastOfGroup(samples[..|samples| - 1], g)
  }

  /** Each group maps to the value of the last sample carrying it, and only
      groups some sample carries appear. */
  lemma {:induction false} ByGroupLastWriteWins(samples: seq<Sample>, g: string)
    ensures Get(ByGroup(samples), g) == LastOfGroup(samples, g)
    decreases |samples|
  {
    if samples != [] {
      var n := |samples| - 1;
      ByGroupLastWriteWins(samples[..n], g);
      GetPut(ByGroup(samples[..n]), Group(samples[n]), samples[n].value, g);
    }
  }

  /** Groups appear in the order they first occur: a later sample of a group
      overwrites its value but not its position. */
  lemma {:induction false} ByGroupOrder(samples: seq<Sample>)
    ensures Keys(ByGroup(samples)) == FirstAppearances(BucketSeq(samples, "group", "default"))
    decreases |samples|
  {
    if samples != [] {
      var n := |samples| - 1;
      var prev := ByGroup(samples[..n]);
      var groups := BucketSeq(samples, "group", "default");
      ByGroupOrder(samples[..n]);
      assert groups[..n] == BucketSeq(samples[..n], "group", "default");
      assert groups[n] == Group(samples[n]);
      assert ByGroup(samples) == Put(prev, Group(samples[n]), samples[n].value);
    }
  }

  /** Values of one group are overwritten, not summed: 3 then 5 shows 5. */
  lemma ByGroupOverwrites(labels: map<string, string>)
    ensures Get(ByGroup([Sample(Num(3), labels), Sample(Num(5), labels)]),
                Group(Sample(Num(3), labels))) == Some(Num(5))
  {
    var s := [Sample(Num(3), labels), Sample(Num(5), labels)];
    assert s[..1] == [Sample(Num(3), labels)];
    ByGroupLastWriteWins(s, Group(Sample(Num(3), labels)));
  }
}
