/** Python's `dict` with string keys, as an insertion-ordered list of entries.
    The attribute dictionaries the sensors build keep their keys in the order
    they were first assigned, and an assignment to an existing key keeps its
    position. */
module Dict {
  import opened Wrappers

  type Dict<V> = seq<(string, V)>

  /** The keys, in insertion order. */
  function Keys<V>(d: Dict<V>): (r: seq<string>)
    ensures |r| == |d|
  {
    if d == [] then [] else [d[0].0] + Keys(d[1..])
  }

  /** No key occurs twice. */
  predicate WellFormed<V>(d: Dict<V>) {
    d == [] || (d[0].0 !in Keys(d[1..]) && WellFormed(d[1..]))
  }

  /** `d.get(k)`. */
  function Get<V>(d: Dict<V>, k: string): (r: Option<V>)
    ensures r.Some? <==> k in Keys(d)
  {
    if d == [] then None
    else if d[0].0 == k then Some(d[0].1)
    else Get(d[1..], k)
  }

  /** `d[k] = v`: overwrites in place when `k` is present, else appends. */
  function Put<V>(d: Dict<V>, k: string, v: V): (r: Dict<V>)
    requires WellFormed(d)
    ensures WellFormed(r)
    ensures k in Keys(d) ==> Keys(r) == Keys(d)
    ensures k !in Keys(d) ==> Keys(r) == Keys(d) + [k]
  {
    if d == [] then [(k, v)]
    else if d[0].0 == k then [(k, v)] + d[1..]
    else
      var t := Put(d[1..], k, v);
      assert ([d[0]] + t)[1..] == t;
      [d[0]] + t
  }

  /** After `d[k] = v`, `k` reads `v` and every other key reads as before. */
  lemma {:induction false} GetPut<V>(d: Dict<V>, k: string, v: V, b: string)
    requires WellFormed(d)
    ensures b == k ==> Get(Put(d, k, v), b) == Some(v)
    ensures b != k ==> Get(Put(d, k, v), b) == Get(d, b)
    decreases |d|
  {
    if d != [] && d[0].0 != k {
      GetPut(d[1..], k, v, b);
      assert Put(d, k, v)[1..] == Put(d[1..], k, v);
    } else if d != [] {
      assert Put(d, k, v)[1..] == d[1..];
    }
  }

  /** The sum of the values of an integer-valued dictionary. */
  function Sum(d: Dict<int>): int {
    if d == [] then 0 else d[0].1 + Sum(d[1..])
  }

  /** `if k not in d: d[k] = 0` followed by `d[k] += v`: accumulates `v`
      under `k`, creating the entry (at the end) when `k` is new. */
  function Add(d: Dict<int>, k: string, v: int): (r: Dict<int>)
    requires WellFormed(d)
    ensures WellFormed(r)
    ensures k in Keys(d) ==> Keys(r) == Keys(d)
    ensures k !in Keys(d) ==> Keys(r) == Keys(d) + [k]
  {
    if d == [] then [(k, v)]
    else if d[0].0 == k then [(k, d[0].1 + v)] + d[1..]
    else
      var t := Add(d[1..], k, v);
      assert ([d[0]] + t)[1..] == t;
      [d[0]] + t
  }

  /** Accumulating `v` under any key adds exactly `v` to the sum of the values. */
  lemma {:induction false} SumAdd(d: Dict<int>, k: string, v: int)
    requires WellFormed(d)
    ensures Sum(Add(d, k, v)) == Sum(d) + v
    decreases |d|
  {
    if d != [] && d[0].0 != k {
      SumAdd(d[1..], k, v);
      assert Add(d, k, v)[1..] == Add(d[1..], k, v);
    }
  }

  /** After accumulating `v` under `k`, `k` reads its old value (0 when it
      was absent) plus `v`, and every other key reads as before. */
  lemma {:induction false} GetAdd(d: Dict<int>, k: string, v: int, b: string)
    requires WellFormed(d)
    ensures b == k ==> Get(Add(d, k, v), b).Some? &&
                       Get(Add(d, k, v), b).value == (if k in Keys(d) then Get(d, k).value else 0) + v
    ensures b != k ==> Get(Add(d, k, v), b) == Get(d, b)
    decreases |d|
  {
    if d != [] && d[0].0 != k {
      GetAdd(d[1..], k, v, b);
      assert Add(d, k, v)[1..] == Add(d[1..], k, v);
    } else if d != [] {
      assert Add(d, k, v)[1..] == d[1..];
    }
  }
}
