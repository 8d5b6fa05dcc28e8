/**
 * Sequence helpers standing in for the array methods and store queries the
 * application relies on: `Array.prototype.filter`, `find`, `slice(0, n)`,
 * `map`, and the first-match lookup behind `findById`.
 */
module Seqs {
  import opened Wrappers

  /** The elements of `s` that satisfy `p`, in their original order (`s.filter(p)`). */
  function Filter<T>(s: seq<T>, p: T -> bool): (r: seq<T>)
    ensures |r| <= |s|
    ensures forall i :: 0 <= i < |r| ==> r[i] in s && p(r[i])
    ensures forall i :: 0 <= i < |s| && p(s[i]) ==> s[i] in r
    decreases |s|
  {
    if s == [] then []
    else if p(s[0]) then [s[0]] + Filter(s[1..], p)
    else Filter(s[1..], p)
  }

  /** Filtering distributes over concatenation, so it keeps the relative order of what it keeps. */
  lemma {:induction false} FilterConcat<T>(a: seq<T>, b: seq<T>, p: T -> bool)
    ensures Filter(a + b, p) == Filter(a, p) + Filter(b, p)
    decreases |a|
  {
    if a == [] {
      assert a + b == b;
    } else {
      assert (a + b)[1..] == a[1..] + b;
      FilterConcat(a[1..], b, p);
    }
  }

  /** Filtering never adds an element, nor another copy of one. */
  lemma {:induction false} FilterSubMultiset<T>(s: seq<T>, p: T -> bool)
    ensures multiset(Filter(s, p)) <= multiset(s)
    decreases |s|
  {
    if s != [] {
      FilterSubMultiset(s[1..], p);
      assert s == [s[0]] + s[1..];
      assert multiset(s) == multiset{s[0]} + multiset(s[1..]);
    }
  }

  /** Replacing one element changes the length of a filtered sequence by that element's own contribution. */
  lemma FilterReplaceLength<T>(s: seq<T>, i: nat, x: T, p: T -> bool)
    requires i < |s|
    ensures |Filter(s[i := x], p)| == |Filter(s, p)| - (if p(s[i]) then 1 else 0) + (if p(x) then 1 else 0)
  {
    var a, c := s[..i], s[i + 1..];
    assert s == a + [s[i]] + c;
    assert s[i := x] == a + [x] + c;
    FilterConcat(a + [s[i]], c, p);
    FilterConcat(a, [s[i]], p);
    FilterConcat(a + [x], c, p);
    FilterConcat(a, [x], p);
  }

  /** Filtering twice with the same predicate changes nothing. */
  lemma {:induction false} FilterIdempotent<T>(s: seq<T>, p: T -> bool)
    ensures Filter(Filter(s, p), p) == Filter(s, p)
    decreases |s|
  {
    if s != [] {
      FilterIdempotent(s[1..], p);
      if p(s[0]) {
        assert ([s[0]] + Filter(s[1..], p))[1..] == Filter(s[1..], p);
      }
    }
  }

  /** `Filter` keeps everything exactly when every element satisfies `p`. */
  lemma {:induction false} FilterAll<T>(s: seq<T>, p: T -> bool)
    requires forall i :: 0 <= i < |s| ==> p(s[i])
    ensures Filter(s, p) == s
    decreases |s|
  {
    if s != [] {
      FilterAll(s[1..], p);
      assert [s[0]] + s[1..] == s;
    }
  }

  /** The index of the first element that satisfies `p`, if any (`findIndex`, `findById`). */
  function FirstIndex<T>(s: seq<T>, p: T -> bool): (r: Option<nat>)
    ensures r.Some? ==> r.value < |s| && p(s[r.value])
    ensures r.Some? ==> forall j :: 0 <= j < r.value ==> !p(s[j])
    ensures r.None? <==> forall j :: 0 <= j < |s| ==> !p(s[j])
    decreases |s|
  {
    if s == [] then None
    else if p(s[0]) then Some(0)
    else match FirstIndex(s[1..], p)
      case None => None
      case Some(k) => Some(k + 1)
  }

  /** The first element that satisfies `p`, if any (`Array.prototype.find`). */
  function Find<T>(s: seq<T>, p: T -> bool): (r: Option<T>)
    ensures r.Some? <==> exists i :: 0 <= i < |s| && p(s[i])
    ensures r.Some? ==> r.value in s && p(r.value)
    ensures r.Some? ==> exists i :: 0 <= i < |s| && s[i] == r.value && forall j :: 0 <= j < i ==> !p(s[j])
  {
    match FirstIndex(s, p)
    case None => None
    case Some(i) => Some(s[i])
  }

  /** `s.slice(0, n)`: the first `n` elements, or all of them when there are fewer. */
  function Take<T>(s: seq<T>, n: nat): (r: seq<T>)
    ensures |r| == if n < |s| then n else |s|
    ensures r <= s
  {
    if n < |s| then s[..n] else s
  }

  /** `s` without the element at position `k`; unchanged when `k` is not a position of `s`. */
  function RemoveAt<T>(s: seq<T>, k: int): (r: seq<T>)
    ensures 0 <= k < |s| ==> |r| == |s| - 1
    ensures 0 <= k < |s| ==> forall j :: 0 <= j < k ==> r[j] == s[j]
    ensures 0 <= k < |s| ==> forall j :: k <= j < |r| ==> r[j] == s[j + 1]
    ensures !(0 <= k < |s|) ==> r == s
  {
    if 0 <= k < |s| then s[..k] + s[k + 1..] else s
  }

  /** Removing a position of `a + b` removes it from whichever part holds it. */
  lemma RemoveAtConcat<T>(a: seq<T>, b: seq<T>, k: int)
    ensures k < |a| ==> RemoveAt(a + b, k) == RemoveAt(a, k) + b
    ensures k >= |a| ==> RemoveAt(a + b, k) == a + RemoveAt(b, k - |a|)
  {
    if 0 <= k < |a| {
      assert (a + b)[..k] == a[..k];
      assert (a + b)[k + 1..] == a[k + 1..] + b;
    } else if |a| <= k < |a| + |b| {
      assert (a + b)[..k] == a + b[..k - |a|];
      assert (a + b)[k + 1..] == b[k - |a| + 1..];
    }
  }

  /** Two sequences with the same multiset hold the same elements. */
  lemma SameMultisetSameElements<T>(a: seq<T>, b: seq<T>)
    requires multiset(a) == multiset(b)
    ensures forall i :: 0 <= i < |a| ==> a[i] in b
    ensures forall i :: 0 <= i < |b| ==> b[i] in a
  {
    forall i | 0 <= i < |a| ensures a[i] in b {
      assert a[i] in multiset(a);
    }
    forall i | 0 <= i < |b| ensures b[i] in a {
      assert b[i] in multiset(b);
    }
  }

  /** The position of the first occurrence of `x` in `s` (`s.indexOf(x)`). */
  function IndexOf<T(==)>(s: seq<T>, x: T): (k: nat)
    requires x in s
    ensures k < |s| && s[k] == x
    ensures forall j :: 0 <= j < k ==> s[j] != x
    decreases |s|
  {
    if s[0] == x then 0 else 1 + IndexOf(s[1..], x)
  }

  /** Every value of `r` occurs in `s`, and they come in the order of their first occurrences in `s`. */
  predicate InFirstOrder<T(==)>(r: seq<T>, s: seq<T>)
  {
    forall i, j :: 0 <= i < j < |r| ==> r[i] in s && r[j] in s && IndexOf(s, r[i]) < IndexOf(s, r[j])
  }

  /** Appending to `s` moves no first occurrence of a value already in `s`. */
  lemma IndexOfAppend<T>(s: seq<T>, y: T, x: T)
    requires x in s
    ensures IndexOf(s + [y], x) == IndexOf(s, x)
  {
    var k := IndexOf(s, x);
    assert (s + [y])[k] == x;
    assert forall j :: 0 <= j < k ==> (s + [y])[j] == s[j];
  }

  /** An order by first occurrence in `s` survives appending a new value to `s`. */
  lemma FirstOrderAppend<T>(r: seq<T>, s: seq<T>, y: T)
    requires InFirstOrder(r, s) && (forall i :: 0 <= i < |r| ==> r[i] in s)
    ensures InFirstOrder(r, s + [y])
  {
    forall x | x in s ensures x in s + [y] && IndexOf(s + [y], x) == IndexOf(s, x) {
      IndexOfAppend(s, y, x);
    }
  }

  /** A value new to `s`, appended to both, comes after everything else by first occurrence. */
  lemma FirstOrderAppendNew<T>(r: seq<T>, s: seq<T>, y: T)
    requires InFirstOrder(r, s) && (forall i :: 0 <= i < |r| ==> r[i] in s) && y !in s
    ensures InFirstOrder(r + [y], s + [y])
  {
    FirstOrderAppend(r, s, y);
    var t := s + [y];
    assert IndexOf(t, y) == |s| by {
      assert t[|s|] == y;
      assert forall j :: 0 <= j < |s| ==> t[j] == s[j];
    }
    var r2 := r + [y];
    forall i, j | 0 <= i < j < |r2| ensures r2[i] in t && r2[j] in t && IndexOf(t, r2[i]) < IndexOf(t, r2[j]) {
      assert r2[i] == r[i];
      if j < |r| {
        assert r2[j] == r[j];
      }
    }
  }

  /** No value occurs twice. */
  predicate Distinct<T(==)>(s: seq<T>)
  {
    forall i, j :: 0 <= i < j < |s| ==> s[i] != s[j]
  }
}
