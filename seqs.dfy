/** Sequence operations the pages use through JavaScript's array methods:
    `filter`, `Array.from(new Set(..))` (distinct elements in first-seen order)
    and `reduce` with `+` (a sum). Each comes with the lemmas that pin down what
    it computes. */
module Seqs {

  /** `a` can be obtained from `b` by deleting elements: order is kept. */
  ghost predicate Subsequence<T>(a: seq<T>, b: seq<T>)
    decreases |b|
  {
    if a == [] then true
    else if b == [] then false
    else (a[0] == b[0] && Subsequence(a[1..], b[1..])) || Subsequence(a, b[1..])
  }

  /** No element occurs twice. */
  ghost predicate NoDuplicates<T>(s: seq<T>)
  {
    forall i, j :: 0 <= i < j < |s| ==> s[i] != s[j]
  }

  /** The elements of `s`, as a set. */
  function Elements<T>(s: seq<T>): set<T>
  {
    set x | x in s
  }

  /** `xs.filter(p)`: the elements satisfying `p`, in their original order. */
  function Filter<T>(p: T -> bool, s: seq<T>): (r: seq<T>)
    ensures |r| <= |s|
    ensures forall x :: x in r ==> x in s && p(x)
  {
    if s == [] then []
    else if p(s[0]) then [s[0]] + Filter(p, s[1..])
    else Filter(p, s[1..])
  }

  lemma {:induction false} FilterAppend<T>(p: T -> bool, a: seq<T>, b: seq<T>)
    ensures Filter(p, a + b) == Filter(p, a) + Filter(p, b)
  {
    if a == [] {
      assert a + b == b;
    } else {
      assert (a + b)[1..] == a[1..] + b;
      FilterAppend(p, a[1..], b);
    }
  }

  /** Every occurrence of an element satisfying `p` is kept; no other. */
  lemma {:induction false} FilterMultiset<T>(p: T -> bool, s: seq<T>, x: T)
    ensures multiset(Filter(p, s))[x] == if p(x) then multiset(s)[x] else 0
  {
    if s != [] {
      assert s == [s[0]] + s[1..];
      FilterMultiset(p, s[1..], x);
    }
  }

  lemma {:induction false} FilterIsSubsequence<T>(p: T -> bool, s: seq<T>)
    ensures Subsequence(Filter(p, s), s)
  {
    if s != [] {
      FilterIsSubsequence(p, s[1..]);
      if p(s[0]) {
        assert Filter(p, s)[1..] == Filter(p, s[1..]);
      } else {
        SubsequenceDropHead(Filter(p, s), s);
      }
    }
  }

  /** Every sequence is a subsequence of itself. */
  lemma {:induction false} SubsequenceReflexive<T>(s: seq<T>)
    ensures Subsequence(s, s)
  {
    if s != [] {
      SubsequenceReflexive(s[1..]);
    }
  }

  lemma SubsequenceDropHead<T>(a: seq<T>, b: seq<T>)
    requires b != [] && Subsequence(a, b[1..])
    ensures Subsequence(a, b)
  {
  }

  lemma {:induction false} FilterKeepsAll<T>(p: T -> bool, s: seq<T>)
    requires forall x :: x in s ==> p(x)
    ensures Filter(p, s) == s
  {
    if s != [] {
      assert s[0] in s;
      FilterKeepsAll(p, s[1..]);
    }
  }

  /** The filter is empty exactly when no element satisfies `p`. */
  lemma {:induction false} FilterEmptyIff<T>(p: T -> bool, s: seq<T>)
    ensures Filter(p, s) == [] <==> forall x :: x in s ==> !p(x)
  {
    if s != [] {
      FilterEmptyIff(p, s[1..]);
      assert forall x :: x in s <==> x == s[0] || x in s[1..];
    }
  }

  /** `Array.from(new Set(s))`: a Set iterates in insertion order, so this is
      every distinct element of `s`, in order of first occurrence. */
  function Distinct<T(==)>(s: seq<T>): (r: seq<T>)
    ensures Elements(r) == Elements(s)
    ensures NoDuplicates(r)
  {
    if s == [] then []
    else
      var d := Distinct(s[..|s| - 1]);
      var last := s[|s| - 1];
      assert s == s[..|s| - 1] + [last];
      assert Elements(s) == Elements(s[..|s| - 1]) + {last};
      if last in d then d else d + [last]
  }

  /** The index of the first occurrence of `x` in `s`. */
  function FirstIndex<T(==)>(s: seq<T>, x: T): (k: nat)
    requires x in s
    ensures k < |s| && s[k] == x
    ensures forall j :: 0 <= j < k ==> s[j] != x
  {
    if s[0] == x then 0 else 1 + FirstIndex(s[1..], x)
  }

  lemma FirstIndexInPrefix<T>(s: seq<T>, n: nat, x: T)
    requires n <= |s| && x in s[..n]
    ensures FirstIndex(s, x) == FirstIndex(s[..n], x)
  {
    var k := FirstIndex(s[..n], x);
    var m := FirstIndex(s, x);
    assert s[k] == x;
    assert m <= k;
    assert s[..n][m] == x;
  }

  /** The distinct elements come in the order of their first occurrence. */
  lemma {:induction false} DistinctFirstSeenOrder<T>(s: seq<T>, i: nat, j: nat)
    requires i < j < |Distinct(s)|
    ensures Distinct(s)[i] in s && Distinct(s)[j] in s
    ensures FirstIndex(s, Distinct(s)[i]) < FirstIndex(s, Distinct(s)[j])
  {
    var r := Distinct(s);
    assert r[i] in Elements(r) && r[j] in Elements(r);
    var init := s[..|s| - 1];
    var d := Distinct(init);
    var last := s[|s| - 1];
    if j < |d| {
      assert r[i] == d[i] && r[j] == d[j];
      DistinctFirstSeenOrder(init, i, j);
      assert d[i] in Elements(d) && d[j] in Elements(d);
      FirstIndexInPrefix(s, |s| - 1, d[i]);
      FirstIndexInPrefix(s, |s| - 1, d[j]);
    } else {
      assert last !in d && r == d + [last] && r[j] == last;
      assert r[i] == d[i] && d[i] in Elements(d);
      FirstIndexInPrefix(s, |s| - 1, d[i]);
      assert last !in Elements(init);
      assert forall k :: 0 <= k < |s| - 1 ==> s[k] == init[k] && s[k] != last;
    }
  }

  /** A sequence without duplicates has as many elements as its set. */
  lemma {:induction false} NoDuplicatesCardinality<T>(s: seq<T>)
    requires NoDuplicates(s)
    ensures |Elements(s)| == |s|
  {
    if s != [] {
      var t := s[1..];
      assert NoDuplicates(t);
      NoDuplicatesCardinality(t);
      assert Elements(s) == Elements(t) + {s[0]};
      assert s[0] !in Elements(t);
    }
  }

  /** `new Set(s).size`: the number of distinct elements of `s`. */
  lemma DistinctCount<T>(s: seq<T>)
    ensures |Distinct(s)| == |Elements(s)|
  {
    NoDuplicatesCardinality(Distinct(s));
  }

  /** `s.reduce((acc, x) => acc + f(x), 0)`. */
  function SumBy<T>(f: T -> int, s: seq<T>): int
  {
    if s == [] then 0 else SumBy(f, s[..|s| - 1]) + f(s[|s| - 1])
  }

  lemma {:induction false} SumByAppend<T>(f: T -> int, a: seq<T>, b: seq<T>)
    ensures SumBy(f, a + b) == SumBy(f, a) + SumBy(f, b)
  {
    if b != [] {
      assert (a + b)[..|a + b| - 1] == a + b[..|b| - 1];
      SumByAppend(f, a, b[..|b| - 1]);
    } else {
      assert a + b == a;
    }
  }

  /** A reduction of non-negative summands is non-negative. */
  lemma {:induction false} SumByNonNegative<T>(f: T -> int, s: seq<T>)
    requires forall x :: x in s ==> f(x) >= 0
    ensures SumBy(f, s) >= 0
  {
    if s != [] {
      var init := s[..|s| - 1];
      assert forall x :: x in init ==> x in s;
      SumByNonNegative(f, init);
      assert s[|s| - 1] in s;
    }
  }
}
