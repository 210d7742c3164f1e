/** Weighted sums over sequences, the accounting tool of the fan-out and budget proofs. */
module Sums {

  function Sum<T>(s: seq<T>, f: T -> int): int {
    if s == [] then 0 else f(s[0]) + Sum(s[1..], f)
  }

  lemma SumSmall<T>(f: T -> int, x: T, y: T)
    ensures Sum([x], f) == f(x)
    ensures Sum([x, y], f) == f(x) + f(y)
  {
    assert [x, y][1..] == [y];
    assert Sum([x, y], f) == f(x) + Sum([y], f);
  }

  lemma {:induction false} SumAppend<T>(a: seq<T>, b: seq<T>, f: T -> int)
    ensures Sum(a + b, f) == Sum(a, f) + Sum(b, f)
  {
    if a == [] {
      assert a + b == b;
    } else {
      assert (a + b)[1..] == a[1..] + b;
      SumAppend(a[1..], b, f);
    }
  }

  lemma {:induction false} SumUpdate<T>(s: seq<T>, i: nat, x: T, f: T -> int)
    requires i < |s|
    ensures Sum(s[i := x], f) == Sum(s, f) - f(s[i]) + f(x)
  {
    assert s == s[..i] + ([s[i]] + s[i+1..]);
    assert s[i := x] == s[..i] + ([x] + s[i+1..]);
    SumAppend(s[..i], [s[i]] + s[i+1..], f);
    SumAppend(s[..i], [x] + s[i+1..], f);
    assert ([s[i]] + s[i+1..])[1..] == s[i+1..] == ([x] + s[i+1..])[1..];
  }

  lemma {:induction false} SumNonNegative<T>(s: seq<T>, f: T -> int)
    requires forall x | x in s :: f(x) >= 0
    ensures Sum(s, f) >= 0
    ensures forall x | x in s :: f(x) <= Sum(s, f)
  {
    if s != [] {
      SumNonNegative(s[1..], f);
      assert forall x | x in s :: x == s[0] || x in s[1..];
    }
  }

  lemma {:induction false} SumConstant<T>(s: seq<T>, c: int, f: T -> int)
    requires forall x | x in s :: f(x) == c
    ensures Sum(s, f) == c * |s|
  {
    if s != [] {
      SumConstant(s[1..], c, f);
    }
  }

  lemma {:induction false} SumPointwise<S, T>(a: seq<S>, b: seq<T>, f: S -> int, g: T -> int)
    requires |a| == |b| && forall k | 0 <= k < |a| :: f(a[k]) == g(b[k])
    ensures Sum(a, f) == Sum(b, g)
  {
    if a != [] {
      assert forall k | 0 <= k < |a[1..]| :: f(a[1..][k]) == g(b[1..][k]);
      SumPointwise(a[1..], b[1..], f, g);
    }
  }

  lemma SumOnly<T>(s: seq<T>, i: nat, f: T -> int)
    requires i < |s| && forall k | 0 <= k < |s| && k != i :: f(s[k]) == 0
    ensures Sum(s, f) == f(s[i])
  {
    SumRemoveAt(s, i, f);
    SumConstant(RemoveAt(s, i), 0, f);
  }

  function RemoveAt<T>(s: seq<T>, k: nat): seq<T>
    requires k < |s|
  {
    s[..k] + s[k+1..]
  }

  lemma RemoveAtMultiset<T>(s: seq<T>, k: nat)
    requires k < |s|
    ensures multiset(RemoveAt(s, k)) == multiset(s) - multiset{s[k]}
  {
    assert s == s[..k] + [s[k]] + s[k+1..];
  }

  lemma SumRemoveAt<T>(s: seq<T>, k: nat, f: T -> int)
    requires k < |s|
    ensures Sum(s, f) == f(s[k]) + Sum(RemoveAt(s, k), f)
  {
    assert s == s[..k] + ([s[k]] + s[k+1..]);
    SumAround(s[..k], s[k], s[k+1..], f);
  }

  lemma SumAround<T>(low: seq<T>, x: T, high: seq<T>, f: T -> int)
    ensures Sum(low + ([x] + high), f) == f(x) + Sum(low + high, f)
  {
    SumAppend(low, [x] + high, f);
    SumAppend(low, high, f);
    assert ([x] + high)[1..] == high;
  }

  /** With no negative terms, the terms up to one of them stay within the whole. */
  lemma SumUpTo<T>(s: seq<T>, k: nat, f: T -> int)
    requires k < |s| && forall x | x in s :: f(x) >= 0
    ensures Sum(s[..k], f) + f(s[k]) <= Sum(s, f)
  {
    assert s == s[..k] + ([s[k]] + s[k+1..]);
    SumAround(s[..k], s[k], s[k+1..], f);
    SumAppend(s[..k], s[k+1..], f);
    SumNonNegative(s[k+1..], f);
  }

  /** A sum does not depend on the order of its terms. */
  lemma {:induction false} SumPermuted<T>(a: seq<T>, b: seq<T>, f: T -> int)
    requires multiset(a) == multiset(b)
    ensures Sum(a, f) == Sum(b, f)
  {
    assert |a| == |multiset(a)| == |multiset(b)| == |b|;
    if a != [] {
      assert a[0] in multiset(a);
      var k :| 0 <= k < |b| && b[k] == a[0];
      RemoveAtMultiset(a, 0);
      RemoveAtMultiset(b, k);
      SumRemoveAt(a, 0, f);
      SumRemoveAt(b, k, f);
      SumPermuted(RemoveAt(a, 0), RemoveAt(b, k), f);
    }
  }

  /** [0, 1, ..., n-1]. */
  function Range(n: nat): (r: seq<nat>)
    ensures |r| == n && forall k | 0 <= k < n :: r[k] == k
  {
    seq(n, k => k)
  }

  /** Summing over the indices of a sequence is summing over the sequence. */
  lemma {:induction false} SumOverIndices<T>(s: seq<T>, f: T -> int, g: nat -> int)
    requires forall k: nat | k < |s| :: g(k) == f(s[k])
    ensures Sum(Range(|s|), g) == Sum(s, f)
  {
    if s == [] {
    } else {
      var n := |s| - 1;
      assert forall k: nat | k < n :: g(k) == f(s[..n][k]);
      SumOverIndices(s[..n], f, g);
      assert Range(|s|) == Range(n) + [n];
      assert s == s[..n] + [s[n]];
      SumAppend<nat>(Range(n), [n], g);
      SumAppend(s[..n], [s[n]], f);
    }
  }
}
