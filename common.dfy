/**
 * Values and sequence operations shared by the worker, the record store and
 * the app shell: optional values, JavaScript numbers that may be NaN,
 * filtering, summing (the `reduce((sum, r) => sum + ..., 0)` idiom) and the
 * one fact about the natural logarithm that the entropy metrics rely on.
 */
module Common {

  datatype Option<+T> = None | Some(value: T)

  /** A JavaScript number as produced by `parseFloat`/`parseInt`: NaN or a finite value. */
  datatype Number = NaN | Num(value: real)

  /** The only property of `Math.log` the model uses: ln(p) <= 0 on (0, 1]. */
  ghost predicate LnNonPositiveOnUnit(ln: real -> real)
  {
    forall p: real :: 0.0 < p <= 1.0 ==> ln(p) <= 0.0
  }

  /** A positive factor times a non-positive one is non-positive (the sign step of `-p * log(p)`). */
  lemma ProductNonPositive(x: real, y: real)
    requires x > 0.0 && y <= 0.0
    ensures x * y <= 0.0
  {
  }

  /** `Array.prototype.filter`: the elements satisfying `keep`, in their original order. */
  function Filter<T>(s: seq<T>, keep: T -> bool): (r: seq<T>)
    ensures |r| <= |s|
    ensures forall i :: 0 <= i < |r| ==> r[i] in s && keep(r[i])
    ensures forall i :: 0 <= i < |s| && keep(s[i]) ==> s[i] in r
  {
    if s == [] then []
    else if keep(s[0]) then [s[0]] + Filter(s[1..], keep)
    else Filter(s[1..], keep)
  }

  /** Filtering distributes over concatenation, so the relative order of kept elements is preserved. */
  lemma {:induction false} FilterConcat<T>(a: seq<T>, b: seq<T>, keep: T -> bool)
    ensures Filter(a + b, keep) == Filter(a, keep) + Filter(b, keep)
  {
    if a == [] {
      assert a + b == b;
    } else {
      assert (a + b)[1..] == a[1..] + b;
      FilterConcat(a[1..], b, keep);
    }
  }

  /** When every element is kept, filtering is the identity; when none is, it is empty. */
  lemma {:induction false} FilterAllOrNone<T>(s: seq<T>, keep: T -> bool)
    ensures (forall i :: 0 <= i < |s| ==> keep(s[i])) ==> Filter(s, keep) == s
    ensures (forall i :: 0 <= i < |s| ==> !keep(s[i])) ==> Filter(s, keep) == []
  {
    if s != [] {
      FilterAllOrNone(s[1..], keep);
      assert forall i :: 0 <= i < |s[1..]| ==> s[1..][i] == s[i + 1];
    }
  }

  /** A relation that holds between every earlier and later element still holds after filtering. */
  lemma {:induction false} FilterPairwise<T>(s: seq<T>, keep: T -> bool, ok: (T, T) -> bool)
    requires forall i, j :: 0 <= i < j < |s| ==> ok(s[i], s[j])
    ensures forall i, j :: 0 <= i < j < |Filter(s, keep)| ==> ok(Filter(s, keep)[i], Filter(s, keep)[j])
  {
    if s != [] {
      var tail := s[1..];
      assert forall i, j :: 0 <= i < j < |tail| ==> ok(tail[i], tail[j]) by {
        forall i, j | 0 <= i < j < |tail| ensures ok(tail[i], tail[j]) {
          assert tail[i] == s[i + 1] && tail[j] == s[j + 1];
        }
      }
      FilterPairwise(tail, keep, ok);
      if keep(s[0]) {
        var r := Filter(s, keep);
        assert r == [s[0]] + Filter(tail, keep);
        forall j | 0 < j < |r| ensures ok(r[0], r[j]) {
          assert r[j] in tail;
          var m :| 0 <= m < |tail| && tail[m] == r[j];
          assert tail[m] == s[m + 1];
        }
      }
    }
  }

  /** `s.reduce((sum, x) => sum + f(x), 0)`: a left fold, so it is defined on the last element. */
  function Sum<T>(s: seq<T>, f: T -> real): real
  {
    if s == [] then 0.0 else Sum(s[..|s| - 1], f) + f(s[|s| - 1])
  }

  /** The sum of `f` over the elements whose key is `k` (`filter` by key, then `reduce`). */
  function SumWhere<T>(s: seq<T>, key: T -> string, f: T -> real, k: string): real
  {
    if s == [] then 0.0
    else SumWhere(s[..|s| - 1], key, f, k) + (if key(s[|s| - 1]) == k then f(s[|s| - 1]) else 0.0)
  }

  /** Appending an element adds its value to the sum. */
  lemma SumAppend<T>(s: seq<T>, x: T, f: T -> real)
    ensures Sum(s + [x], f) == Sum(s, f) + f(x)
  {
    assert (s + [x])[..|s|] == s;
  }

  /** Appending an element adds its value to the sum under its own key only. */
  lemma SumWhereAppend<T>(s: seq<T>, x: T, key: T -> string, f: T -> real, k: string)
    ensures SumWhere(s + [x], key, f, k) == SumWhere(s, key, f, k) + (if key(x) == k then f(x) else 0.0)
  {
    assert (s + [x])[..|s|] == s;
  }

  /** The keyed sum is the `filter`-then-`reduce` of the source: the plain sum over the
      elements that the key test keeps. */
  lemma {:induction false} SumWhereIsFilteredSum<T>(s: seq<T>, key: T -> string, f: T -> real, k: string,
                                                     keep: T -> bool)
    requires forall x :: keep(x) <==> key(x) == k
    ensures SumWhere(s, key, f, k) == Sum(Filter(s, keep), f)
  {
    if s != [] {
      var n := |s| - 1;
      var x := s[n];
      assert s == s[..n] + [x];
      SumWhereIsFilteredSum(s[..n], key, f, k, keep);
      FilterConcat(s[..n], [x], keep);
      assert Filter([x], keep) == if keep(x) then [x] else [];
      assert SumWhere(s, key, f, k) == SumWhere(s[..n], key, f, k) + (if keep(x) then f(x) else 0.0);
      if keep(x) {
        SumAppend(Filter(s[..n], keep), x, f);
      } else {
        assert Filter(s, keep) == Filter(s[..n], keep) + [];
        assert Filter(s[..n], keep) + [] == Filter(s[..n], keep);
      }
    }
  }

  /** A sum of non-negative values is non-negative. */
  lemma {:induction false} SumNonNegative<T>(s: seq<T>, f: T -> real)
    requires forall i :: 0 <= i < |s| ==> f(s[i]) >= 0.0
    ensures Sum(s, f) >= 0.0
  {
    if s != [] {
      var n := |s| - 1;
      assert forall i :: 0 <= i < |s[..n]| ==> s[..n][i] == s[i];
      SumNonNegative(s[..n], f);
    }
  }

  /** Replacing one element changes the sum by exactly the difference of the two values. */
  lemma {:induction false} SumUpdate<T>(s: seq<T>, i: nat, x: T, f: T -> real)
    requires i < |s|
    ensures Sum(s[i := x], f) == Sum(s, f) - f(s[i]) + f(x)
  {
    var n := |s| - 1;
    if i < n {
      assert s[i := x][..n] == s[..n][i := x];
      SumUpdate(s[..n], i, x, f);
    } else {
      assert s[i := x][..n] == s[..n];
    }
  }

  /** The same for a sum restricted to one key. */
  lemma {:induction false} SumWhereUpdate<T>(s: seq<T>, i: nat, x: T, key: T -> string, f: T -> real, k: string)
    requires i < |s|
    ensures SumWhere(s[i := x], key, f, k)
         == SumWhere(s, key, f, k)
            - (if key(s[i]) == k then f(s[i]) else 0.0)
            + (if key(x) == k then f(x) else 0.0)
  {
    var n := |s| - 1;
    if i < n {
      assert s[i := x][..n] == s[..n][i := x];
      SumWhereUpdate(s[..n], i, x, key, f, k);
    } else {
      assert s[i := x][..n] == s[..n];
    }
  }

  /** `total` lies between `n` times `lo` and `n` times `hi`. */
  predicate ScaledBetween(total: real, n: real, lo: real, hi: real)
  {
    n * lo <= total <= n * hi
  }

  /** Bounds on every term bound the sum. */
  lemma {:induction false} SumBounds<T>(s: seq<T>, f: T -> real, lo: real, hi: real)
    requires forall i :: 0 <= i < |s| ==> lo <= f(s[i]) <= hi
    ensures ScaledBetween(Sum(s, f), |s| as real, lo, hi)
  {
    if s != [] {
      var n := |s| - 1;
      assert forall i :: 0 <= i < |s[..n]| ==> s[..n][i] == s[i];
      SumBounds(s[..n], f, lo, hi);
      assert (|s| as real) * lo == (n as real) * lo + lo;
      assert (|s| as real) * hi == (n as real) * hi + hi;
    }
  }

  /** Sum of the per-key sums over a list of keys. */
  function SumOverKeys<T>(s: seq<T>, key: T -> string, f: T -> real, keys: seq<string>): real
  {
    if keys == [] then 0.0 else SumWhere(s, key, f, keys[0]) + SumOverKeys(s, key, f, keys[1..])
  }

  /** Adding one element adds its value once, under the one key it belongs to. */
  lemma {:induction false} SumOverKeysAppend<T>(s: seq<T>, x: T, key: T -> string, f: T -> real, keys: seq<string>)
    requires forall i, j :: 0 <= i < j < |keys| ==> keys[i] != keys[j]
    ensures SumOverKeys(s + [x], key, f, keys)
         == SumOverKeys(s, key, f, keys) + (if key(x) in keys then f(x) else 0.0)
  {
    if keys != [] {
      SumWhereAppend(s, x, key, f, keys[0]);
      SumOverKeysAppend(s, x, key, f, keys[1..]);
      assert key(x) in keys <==> key(x) == keys[0] || key(x) in keys[1..];
    }
  }

  /** Grouping by key partitions the total: summing the groups over a duplicate-free
      list that covers every key gives back the sum of all elements. */
  lemma {:induction false} PartitionByKey<T>(s: seq<T>, key: T -> string, f: T -> real, keys: seq<string>)
    requires forall i, j :: 0 <= i < j < |keys| ==> keys[i] != keys[j]
    requires forall i :: 0 <= i < |s| ==> key(s[i]) in keys
    ensures SumOverKeys(s, key, f, keys) == Sum(s, f)
  {
    if s == [] {
      SumOverKeysEmpty(key, f, keys);
    } else {
      var n := |s| - 1;
      assert s == s[..n] + [s[n]];
      PartitionByKey(s[..n], key, f, keys);
      SumOverKeysAppend(s[..n], s[n], key, f, keys);
    }
  }

  lemma {:induction false} SumOverKeysEmpty<T>(key: T -> string, f: T -> real, keys: seq<string>)
    ensures SumOverKeys([], key, f, keys) == 0.0
  {
    if keys != [] {
      SumOverKeysEmpty(key, f, keys[1..]);
    }
  }

  /** `Array.prototype.findIndex` with a callback comparing a key: the first index whose
      element has key `k`, or -1. */
  function FindKey<T, K(==)>(s: seq<T>, key: T -> K, k: K): (r: int)
    ensures -1 <= r < |s|
    ensures r == -1 <==> forall i :: 0 <= i < |s| ==> key(s[i]) != k
    ensures r >= 0 ==> key(s[r]) == k && forall i :: 0 <= i < r ==> key(s[i]) != k
  {
    if s == [] then -1
    else if key(s[0]) == k then 0
    else
      var j := FindKey(s[1..], key, k);
      if j == -1 then -1 else j + 1
  }
}
