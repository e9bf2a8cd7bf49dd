/**
 * The Python and numpy built-ins that the localisation scripts rely on,
 * stated over exact values: `range`, slicing, `[::-1]`, `argmax`, `sum`,
 * `sorted`, `np.ceil` and `int()`, and the exceptions they raise.
 */
module Builtins {

  /** The Python exceptions that the modelled code can raise. */
  datatype Exception = ValueError | ZeroDivisionError | IndexError

  /** A value that may be Python's `None`. */
  datatype Option<+T> = None | Some(value: T)

  /** A computation that either yields a value or raises. */
  datatype Result<+T> = Ok(value: T) | Err(exception: Exception) {
    predicate IsFailure() { Err? }

    function PropagateFailure<U>(): Result<U>
      requires Err?
    {
      Err(exception)
    }

    function Extract(): T
      requires Ok?
    {
      value
    }
  }

  /** `range(start, stop, step)` as a sequence; Python refuses a zero step. */
  function Range(start: int, stop: int, step: int): (r: seq<int>)
    requires step != 0
    ensures step > 0 ==> forall i :: 0 <= i < |r| ==> start <= r[i] < stop
    ensures step < 0 ==> forall i :: 0 <= i < |r| ==> stop < r[i] <= start
    decreases if step > 0 then stop - start else start - stop
  {
    if (step > 0 && start < stop) || (step < 0 && start > stop) then
      [start] + Range(start + step, stop, step)
    else
      []
  }

  /** With a positive step, `range` yields `start, start + step, ...` and stops at the first value not below `stop`. */
  lemma {:induction false} RangeAscending(start: int, stop: int, step: int)
    requires step > 0
    ensures forall i :: 0 <= i < |Range(start, stop, step)| ==> Range(start, stop, step)[i] == start + i * step
    ensures stop <= start + |Range(start, stop, step)| * step
    ensures |Range(start, stop, step)| > 0 ==> start + (|Range(start, stop, step)| - 1) * step < stop
    decreases stop - start
  {
    if start < stop {
      var rest := Range(start + step, stop, step);
      RangeAscending(start + step, stop, step);
      assert Range(start, stop, step) == [start] + rest;
      forall i | 1 <= i < |rest| + 1
        ensures Range(start, stop, step)[i] == start + i * step
      {
        assert rest[i - 1] == start + step + (i - 1) * step;
      }
      assert start + step + |rest| * step == start + (|rest| + 1) * step;
    }
  }

  /** Where a slice bound `k` lands in a sequence of length `n`: a negative bound counts from the end, and either kind is clamped to `[0, n]`. */
  function SliceIndex(k: int, n: nat): (r: nat)
    ensures r <= n
  {
    if k < 0 then (if n + k > 0 then n + k else 0)
    else if k < n then k else n
  }

  /** `s[:k]`: a prefix of `s`; a non-negative `k` keeps the first `k` elements, a negative one drops the last `-k` (all of them once `-k >= |s|`). */
  function Take<T>(s: seq<T>, k: int): (r: seq<T>)
    ensures r <= s
    ensures 0 <= k ==> |r| == if k < |s| then k else |s|
    ensures k < 0 ==> |r| == if |s| + k > 0 then |s| + k else 0
  {
    s[..SliceIndex(k, |s|)]
  }

  /** `s[k:]`: a suffix of `s`; a non-negative `k` drops the first `k` elements, a negative one keeps the last `-k` (all of them once `-k >= |s|`). */
  function Drop<T>(s: seq<T>, k: int): (r: seq<T>)
    ensures |r| <= |s| && r == s[|s| - |r|..]
    ensures 0 <= k ==> |r| == if k < |s| then |s| - k else 0
    ensures k < 0 ==> |r| == if -k < |s| then -k else |s|
  {
    s[SliceIndex(k, |s|)..]
  }

  /** `s[::-1]` */
  function Reverse<T>(s: seq<T>): (r: seq<T>)
    ensures |r| == |s|
  {
    seq(|s|, i requires 0 <= i < |s| => s[|s| - 1 - i])
  }

  /** `v.argmax()` of a non-empty vector. */
  function ArgMax(v: seq<real>): (r: nat)
    requires |v| > 0
    ensures r < |v|
  {
    if |v| == 1 then 0
    else
      var r' := ArgMax(v[..|v| - 1]);
      if v[|v| - 1] > v[r'] then |v| - 1 else r'
  }

  /** `b` is the first index of the maximum of `v`. */
  ghost predicate IsFirstMax(v: seq<real>, b: int) {
    && 0 <= b < |v|
    && (forall j :: 0 <= j < |v| ==> v[j] <= v[b])
    && (forall j :: 0 <= j < b ==> v[j] < v[b])
  }

  /** `ArgMax` returns the FIRST index that holds the maximum, as numpy does. */
  lemma {:induction false} ArgMaxIsFirstMax(v: seq<real>)
    requires |v| > 0
    ensures IsFirstMax(v, ArgMax(v))
  {
    if |v| > 1 {
      var u := v[..|v| - 1];
      ArgMaxIsFirstMax(u);
      assert forall j :: 0 <= j < |u| ==> v[j] == u[j];
    }
  }

  /** The first index of the maximum is unique, so `ArgMax` is the only index with that property. */
  lemma FirstMaxUnique(v: seq<real>, b: int)
    requires |v| > 0 && IsFirstMax(v, b)
    ensures b == ArgMax(v)
  {
    ArgMaxIsFirstMax(v);
  }

  /** `s.sum()` over exact reals. */
  function Sum(s: seq<real>): real {
    if s == [] then 0.0 else Sum(s[..|s| - 1]) + s[|s| - 1]
  }

  /** Dividing every entry by `t` divides the sum by `t`. */
  lemma {:induction false} SumScaled(s: seq<real>, t: real)
    requires t != 0.0
    ensures Sum(seq(|s|, i requires 0 <= i < |s| => s[i] / t)) == Sum(s) / t
  {
    var d := seq(|s|, i requires 0 <= i < |s| => s[i] / t);
    if s != [] {
      var s' := s[..|s| - 1];
      SumScaled(s', t);
      assert d[..|s| - 1] == seq(|s'|, i requires 0 <= i < |s'| => s'[i] / t);
    }
  }

  /** In a vector of non-negative entries every entry is at most the sum, and the sum is non-negative. */
  lemma {:induction false} SumBoundsEntries(s: seq<real>)
    requires forall i :: 0 <= i < |s| ==> 0.0 <= s[i]
    ensures 0.0 <= Sum(s)
    ensures forall i :: 0 <= i < |s| ==> s[i] <= Sum(s)
  {
    if s != [] {
      SumBoundsEntries(s[..|s| - 1]);
      assert forall i :: 0 <= i < |s| - 1 ==> s[i] == s[..|s| - 1][i];
    }
  }

  /** No value occurs twice in `s` (the keys of a dict). */
  ghost predicate Distinct(s: seq<int>) {
    forall i, j :: 0 <= i < j < |s| ==> s[i] != s[j]
  }

  /** `s` is in strictly ascending order. */
  ghost predicate StrictlyAscending(s: seq<int>) {
    forall i, j :: 0 <= i < j < |s| ==> s[i] < s[j]
  }

  /** Places `x` into the strictly ascending `s`, before its first larger element. */
  function Insert(x: int, s: seq<int>): (r: seq<int>)
    requires StrictlyAscending(s) && x !in s
    ensures StrictlyAscending(r)
    ensures |r| == |s| + 1
    ensures forall i :: 0 <= i < |r| ==> r[i] == x || r[i] in s
    ensures multiset(r) == multiset(s) + multiset{x}
  {
    if s == [] || x < s[0] then [x] + s
    else
      var tail := Insert(x, s[1..]);
      assert s == [s[0]] + s[1..];
      assert forall i :: 0 <= i < |tail| ==> s[0] < tail[i];
      [s[0]] + tail
  }

  /** `sorted(keys)` for the distinct integer keys of a dict: a strictly ascending permutation of them. */
  function Sorted(keys: seq<int>): (r: seq<int>)
    requires Distinct(keys)
    ensures StrictlyAscending(r)
    ensures |r| == |keys|
    ensures multiset(r) == multiset(keys)
  {
    if keys == [] then []
    else
      var rest := keys[..|keys| - 1];
      var x := keys[|keys| - 1];
      assert keys == rest + [x];
      assert x !in multiset(rest);
      Insert(x, Sorted(rest))
  }

  /** The sorted keys are exactly the keys. */
  lemma SortedMembers(keys: seq<int>)
    requires Distinct(keys)
    ensures forall a :: a in Sorted(keys) <==> a in keys
  {
    var s := Sorted(keys);
    forall a
      ensures a in s <==> a in keys
    {
      assert a in s <==> a in multiset(s);
      assert a in keys <==> a in multiset(keys);
    }
  }

  /** `int(np.ceil(x))`: the least integer not below `x`. */
  function Ceil(x: real): (r: int)
    ensures x <= r as real < x + 1.0
  {
    -((-x).Floor)
  }

  /** `int(x)` for a float: truncation toward zero. */
  function Trunc(x: real): (r: int)
    ensures 0.0 <= x ==> r as real <= x < r as real + 1.0
    ensures x < 0.0 ==> r as real - 1.0 < x <= r as real
  {
    if x < 0.0 then -((-x).Floor) else x.Floor
  }
}
