/** Sequences without repetition, and `[...new Set(xs)]`. */
module Seqs {

  predicate Distinct<T(==)>(s: seq<T>) {
    forall i, j :: 0 <= i < j < |s| ==> s[i] != s[j]
  }

  lemma DistinctAppend<T>(s: seq<T>, x: T)
    requires Distinct(s) && x !in s
    ensures Distinct(s + [x])
  {
  }

  /** Dropping the first element keeps a sequence distinct, and that element does not occur again. */
  lemma DistinctTail<T>(s: seq<T>)
    requires Distinct(s) && 0 < |s|
    ensures Distinct(s[1..]) && s[0] !in s[1..]
  {
    assert forall i :: 0 <= i < |s| - 1 ==> s[1..][i] == s[i + 1];
  }

  /** The position of the first `x` in `xs`. */
  function FirstIndex<T(==)>(xs: seq<T>, x: T): (i: nat)
    requires x in xs
    ensures i < |xs| && xs[i] == x && x !in xs[..i]
  {
    if xs[0] == x then 0 else FirstIndex(xs[1..], x) + 1
  }

  lemma AppendAssoc<T>(a: seq<T>, b: seq<T>, c: seq<T>)
    ensures a + b + c == a + (b + c)
  {
  }

  /** `xs.indexOf(x)`: the position of the first `x`, or -1. */
  function IndexOfElem<T(==)>(xs: seq<T>, x: T): (i: int)
    ensures i == -1 <==> x !in xs
    ensures i >= 0 ==> i < |xs| && xs[i] == x && x !in xs[..i]
  {
    if x in xs then FirstIndex(xs, x) else -1
  }

  /** A first occurrence inside a prefix is the first occurrence in the whole sequence. */
  lemma FirstIndexPrefix<T>(xs: seq<T>, n: nat, x: T)
    requires n <= |xs| && x in xs[..n]
    ensures FirstIndex(xs, x) == FirstIndex(xs[..n], x)
  {
    var i := FirstIndex(xs[..n], x);
    assert xs[..n][..i] == xs[..i];
    assert x !in xs[..i] && xs[i] == x;
  }

  /**
   * `[...new Set(xs)]`: a Set keeps the order in which values were first added,
   * so every element is kept at its first occurrence and later repeats are dropped.
   */
  function Dedupe<T(==)>(xs: seq<T>): (r: seq<T>)
    ensures Distinct(r)
    ensures forall i :: 0 <= i < |r| ==> r[i] in xs
    ensures forall i :: 0 <= i < |xs| ==> xs[i] in r
  {
    if |xs| == 0 then []
    else
      var d := Dedupe(xs[..|xs| - 1]);
      var x := xs[|xs| - 1];
      assert xs == xs[..|xs| - 1] + [x];
      if x in d then d else (DistinctAppend(d, x); d + [x])
  }

  /** The elements of `Dedupe(xs)` appear in the order of their first occurrence in `xs`. */
  lemma {:induction false} DedupeOrder<T>(xs: seq<T>, i: nat, j: nat)
    requires i < j < |Dedupe(xs)|
    ensures FirstIndex(xs, Dedupe(xs)[i]) < FirstIndex(xs, Dedupe(xs)[j])
    decreases |xs|
  {
    var n := |xs| - 1;
    var init := xs[..n];
    var d := Dedupe(init);
    var x := xs[n];
    var r := Dedupe(xs);
    if j < |d| {
      DedupeOrder(init, i, j);
      FirstIndexPrefix(xs, n, r[i]);
      FirstIndexPrefix(xs, n, r[j]);
    } else {
      // r[j] is the newly added last element, which does not occur earlier
      assert r == d + [x] && j == |d| && x !in init;
      FirstIndexPrefix(xs, n, r[i]);
      assert FirstIndex(xs, x) == n by {
        assert xs[..n] == init;
      }
    }
  }

  /** Deduplicating a sequence that has no repeats changes nothing. */
  lemma {:induction false} DedupeDistinct<T>(xs: seq<T>)
    requires Distinct(xs)
    ensures Dedupe(xs) == xs
  {
    if |xs| > 0 {
      var init := xs[..|xs| - 1];
      DedupeDistinct(init);
      assert xs[|xs| - 1] !in init;
      assert xs == init + [xs[|xs| - 1]];
    }
  }

  /** Deduplicating a longer sequence only adds elements after those of the shorter one. */
  lemma {:induction false} DedupePrefix<T>(a: seq<T>, b: seq<T>)
    ensures Dedupe(a) <= Dedupe(a + b)
    decreases |b|
  {
    if |b| == 0 {
      assert a + b == a;
    } else {
      var b' := b[..|b| - 1];
      DedupePrefix(a, b');
      assert (a + b)[..|a + b| - 1] == a + b';
      var d, d', x := Dedupe(a + b'), Dedupe(a + b), (a + b)[|a + b| - 1];
      assert d' == if x in d then d else d + [x];
      var k := |Dedupe(a)|;
      assert Dedupe(a) == d[..k];
      assert d'[..k] == d[..k];
    }
  }
}
