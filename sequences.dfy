/**
 * The array operations the application relies on: `Array.prototype.filter`,
 * `Array.from(new Set(xs))` (distinct elements in first-seen order) and
 * `indexOf`, `findIndex` and `find`.
 */
module Sequences {
  import opened Optional

  /** `s.filter(keep)`: the elements of `s` that `keep` accepts, in their order. */
  function Filter<T(==)>(s: seq<T>, keep: T -> bool): (r: seq<T>)
    ensures |r| <= |s|
    ensures forall i :: 0 <= i < |r| ==> r[i] in s && keep(r[i])
    ensures forall i :: 0 <= i < |s| && keep(s[i]) ==> s[i] in r
  {
    if s == [] then [] else (if keep(s[0]) then [s[0]] else []) + Filter(s[1..], keep)
  }

  /** Filtering distributes over concatenation, so relative order is kept. */
  lemma {:induction false} FilterConcat<T>(a: seq<T>, b: seq<T>, keep: T -> bool)
    ensures Filter(a + b, keep) == Filter(a, keep) + Filter(b, keep)
  {
    if a == [] {
      assert a + b == b;
    } else {
      assert (a + b)[1..] == a[1..] + b;
      FilterConcat(a[1..], b, keep);
    }
  }

  /** Filtering a sequence that starts with `x`. */
  lemma FilterCons<T>(x: T, rest: seq<T>, keep: T -> bool)
    ensures Filter([x] + rest, keep) == (if keep(x) then [x] else []) + Filter(rest, keep)
  {
    assert ([x] + rest)[1..] == rest;
  }

  /** Filtering one element more at the end. */
  lemma FilterSnoc<T>(s: seq<T>, x: T, keep: T -> bool)
    ensures Filter(s + [x], keep) == Filter(s, keep) + (if keep(x) then [x] else [])
  {
    FilterConcat(s, [x], keep);
  }

  /** A filter that accepts every element is the identity. */
  lemma {:induction false} FilterKeepsAll<T>(s: seq<T>, keep: T -> bool)
    requires forall i :: 0 <= i < |s| ==> keep(s[i])
    ensures Filter(s, keep) == s
  {
    if s != [] {
      FilterKeepsAll(s[1..], keep);
    }
  }

  /** Filtering twice by the same test is filtering once. */
  lemma {:induction false} FilterIdempotent<T>(s: seq<T>, keep: T -> bool)
    ensures Filter(Filter(s, keep), keep) == Filter(s, keep)
  {
    var r := Filter(s, keep);
    FilterKeepsAll(r, keep);
  }

  /** The filter keeps every element exactly when it is as long as its input. */
  lemma {:induction false} FilterFullLength<T>(s: seq<T>, keep: T -> bool)
    ensures |Filter(s, keep)| == |s| <==> forall i :: 0 <= i < |s| ==> keep(s[i])
  {
    if s != [] {
      FilterFullLength(s[1..], keep);
      if !keep(s[0]) {
        assert |Filter(s, keep)| == |Filter(s[1..], keep)| <= |s| - 1;
      } else {
        forall i | 1 <= i < |s| ensures keep(s[i]) == keep(s[1..][i - 1]) { }
      }
    } else {
      assert Filter(s, keep) == [];
    }
  }

  /**
   * Filtering keeps the relative order of what it keeps, duplicates
   * included: the kept elements sit at strictly increasing positions of `s`.
   */
  lemma {:induction false} FilterPositions<T>(s: seq<T>, keep: T -> bool) returns (idx: seq<nat>)
    ensures |idx| == |Filter(s, keep)|
    ensures forall k :: 0 <= k < |idx| ==> idx[k] < |s| && s[idx[k]] == Filter(s, keep)[k]
    ensures forall k, l :: 0 <= k < l < |idx| ==> idx[k] < idx[l]
  {
    if s == [] {
      idx := [];
    } else {
      var rest := s[1..];
      var tail := FilterPositions(rest, keep);
      FilterCons(s[0], rest, keep);
      assert [s[0]] + rest == s;
      idx := ConsPositions(s[0], rest, Filter(rest, keep), tail, keep(s[0]));
    }
  }

  /** Positions of `g` in `rest` become positions in `[x] + rest`, with `x` itself at 0 when it is kept. */
  lemma ConsPositions<T>(x: T, rest: seq<T>, g: seq<T>, tail: seq<nat>, kept: bool) returns (idx: seq<nat>)
    requires |tail| == |g|
    requires forall k :: 0 <= k < |tail| ==> tail[k] < |rest| && rest[tail[k]] == g[k]
    requires forall k, l :: 0 <= k < l < |tail| ==> tail[k] < tail[l]
    ensures var s, f := [x] + rest, (if kept then [x] else []) + g;
      && |idx| == |f|
      && (forall k :: 0 <= k < |idx| ==> idx[k] < |s| && s[idx[k]] == f[k])
      && (forall k, l :: 0 <= k < l < |idx| ==> idx[k] < idx[l])
  {
    var s := [x] + rest;
    var shifted := seq(|tail|, k requires 0 <= k < |tail| => tail[k] + 1);
    forall k | 0 <= k < |shifted| ensures shifted[k] < |s| && s[shifted[k]] == g[k] {
      assert s[tail[k] + 1] == rest[tail[k]];
    }
    forall k, l | 0 <= k < l < |shifted| ensures shifted[k] < shifted[l] {
      assert tail[k] < tail[l];
    }
    if kept {
      idx := seq(|tail| + 1, k requires 0 <= k <= |tail| => if k == 0 then 0 else tail[k - 1] + 1);
      var f := [x] + g;
      forall k | 0 <= k < |idx| ensures idx[k] < |s| && s[idx[k]] == f[k] {
        if k > 0 {
          assert idx[k] == shifted[k - 1] && f[k] == g[k - 1];
        }
      }
      forall k, l | 0 <= k < l < |idx| ensures idx[k] < idx[l] {
        assert idx[l] == tail[l - 1] + 1;
        if k > 0 {
          assert idx[k] == tail[k - 1] + 1 && tail[k - 1] < tail[l - 1];
        }
      }
    } else {
      idx := shifted;
    }
  }

  /** Two tests that agree on every element of `s` filter it alike. */
  lemma {:induction false} FilterAgree<T>(s: seq<T>, p: T -> bool, q: T -> bool)
    requires forall i :: 0 <= i < |s| ==> p(s[i]) == q(s[i])
    ensures Filter(s, p) == Filter(s, q)
  {
    if s != [] {
      FilterAgree(s[1..], p, q);
    }
  }

  /** `s.findIndex(test)`: the first index whose element passes, or -1. */
  function FirstIndex<T>(s: seq<T>, test: T -> bool): (i: int)
    ensures -1 <= i < |s|
    ensures i == -1 <==> forall k :: 0 <= k < |s| ==> !test(s[k])
    ensures i >= 0 ==> test(s[i]) && forall k :: 0 <= k < i ==> !test(s[k])
  {
    if s == [] then -1
    else if test(s[0]) then 0
    else
      var j := FirstIndex(s[1..], test);
      if j < 0 then -1 else j + 1
  }

  /** `s.find(test)`: the first element that passes, if any. */
  function First<T>(s: seq<T>, test: T -> bool): (r: Option<T>)
    ensures r.None? <==> forall k :: 0 <= k < |s| ==> !test(s[k])
    ensures r.Some? ==> test(r.value) && r.value == s[FirstIndex(s, test)]
  {
    var i := FirstIndex(s, test);
    if i < 0 then None else Some(s[i])
  }

  /** The first passing index is the only one the search can return. */
  lemma FirstIndexIs<T>(s: seq<T>, test: T -> bool, i: int)
    requires 0 <= i < |s| && test(s[i])
    requires forall k :: 0 <= k < i ==> !test(s[k])
    ensures FirstIndex(s, test) == i
  {
    assert FirstIndex(s, test) != -1;
  }

  /** The distinct elements of `s` in order of first occurrence, as `Array.from(new Set(s))`. */
  function Distinct<T(==)>(s: seq<T>): (r: seq<T>)
    ensures forall i :: 0 <= i < |r| ==> r[i] in s
    ensures forall i :: 0 <= i < |s| ==> s[i] in r
    ensures forall i, j :: 0 <= i < j < |r| ==> r[i] != r[j]
  {
    if s == [] then []
    else
      var d := Distinct(s[..|s| - 1]);
      assert s == s[..|s| - 1] + [s[|s| - 1]];
      if s[|s| - 1] in d then d else d + [s[|s| - 1]]
  }

  /** The index of the first occurrence of `x` in `s`. */
  function IndexOf<T(==)>(s: seq<T>, x: T): (i: nat)
    requires x in s
    ensures i < |s| && s[i] == x && x !in s[..i]
  {
    if s[0] == x then 0 else 1 + IndexOf(s[1..], x)
  }

  lemma IndexOfSnoc<T>(s: seq<T>, x: T, y: T)
    requires y in s
    ensures IndexOf(s + [x], y) == IndexOf(s, y)
  {
    var i := IndexOf(s, y);
    assert (s + [x])[i] == y;
  }

  /** `Distinct` lists the elements in the order in which they first occur. */
  lemma {:induction false} DistinctFirstSeenOrder<T>(s: seq<T>)
    ensures forall i, j :: 0 <= i < j < |Distinct(s)| ==> IndexOf(s, Distinct(s)[i]) < IndexOf(s, Distinct(s)[j])
  {
    if s != [] {
      var p := s[..|s| - 1];
      var x := s[|s| - 1];
      assert s == p + [x];
      DistinctFirstSeenOrder(p);
      var d := Distinct(p);
      var r := Distinct(s);
      assert r == if x in d then d else d + [x];
      forall i, j | 0 <= i < j < |r| ensures IndexOf(s, r[i]) < IndexOf(s, r[j]) {
        assert r[i] == d[i] && r[i] in d;
        IndexOfSnoc(p, x, d[i]);
        if j < |d| {
          assert r[j] == d[j] && r[j] in d;
          IndexOfSnoc(p, x, d[j]);
        } else {
          assert r[j] == x && x !in p;
          assert IndexOf(s, x) == |p|;
        }
      }
    }
  }

  /** The test "has key `k`" for a key function. */
  function KeyIs<T, K(==)>(key: T -> K, k: K): T -> bool {
    (x: T) => key(x) == k
  }

  /** The summed sizes of the groups of `s` under each listed key. */
  function GroupSizes<T(==), K(==)>(s: seq<T>, key: T -> K, keys: seq<K>): nat {
    if keys == [] then 0 else |Filter(s, KeyIs(key, keys[0]))| + GroupSizes(s, key, keys[1..])
  }

  lemma {:induction false} GroupSizesCons<T, K>(x: T, s: seq<T>, key: T -> K, keys: seq<K>)
    requires forall i, j :: 0 <= i < j < |keys| ==> keys[i] != keys[j]
    ensures GroupSizes([x] + s, key, keys) == GroupSizes(s, key, keys) + (if key(x) in keys then 1 else 0)
  {
    if keys != [] {
      var k, rest := keys[0], keys[1..];
      assert forall i, j :: 0 <= i < j < |rest| ==> rest[i] != rest[j] by {
        forall i, j | 0 <= i < j < |rest| ensures rest[i] != rest[j] {
          assert rest[i] == keys[i + 1] && rest[j] == keys[j + 1];
        }
      }
      assert k !in rest by {
        forall m | 0 <= m < |rest| ensures rest[m] != k {
          assert rest[m] == keys[m + 1];
        }
      }
      GroupSizesCons(x, s, key, rest);
      FilterCons(x, s, KeyIs(key, k));
      assert keys == [k] + rest;
    }
  }

  /**
   * Grouping by key over a list of distinct keys that names every key
   * present puts each element in exactly one group: the group sizes add up
   * to the length.
   */
  lemma {:induction false} GroupSizesPartition<T, K>(s: seq<T>, key: T -> K, keys: seq<K>)
    requires forall i, j :: 0 <= i < j < |keys| ==> keys[i] != keys[j]
    requires forall i :: 0 <= i < |s| ==> key(s[i]) in keys
    ensures GroupSizes(s, key, keys) == |s|
  {
    if s == [] {
      GroupSizesEmpty(key, keys);
    } else {
      assert s == [s[0]] + s[1..];
      GroupSizesPartition(s[1..], key, keys);
      GroupSizesCons(s[0], s[1..], key, keys);
    }
  }

  lemma {:induction false} GroupSizesEmpty<T, K>(key: T -> K, keys: seq<K>)
    ensures GroupSizes([], key, keys) == 0
  {
    if keys != [] {
      GroupSizesEmpty(key, keys[1..]);
    }
  }
}
