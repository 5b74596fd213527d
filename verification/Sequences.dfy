/** Small facts about sequences used by the in-memory queue. */
module Sequences {
  function Without<T>(s: seq<T>, k: nat): seq<T>
    requires k < |s|
  {
    s[..k] + s[k + 1..]
  }

  function Filter<T>(s: seq<T>, f: T -> bool): seq<T> {
    if s == [] then []
    else Filter(s[..|s| - 1], f) + if f(s[|s| - 1]) then [s[|s| - 1]] else []
  }

  function Images<T, U>(s: seq<T>, f: T -> U): (r: seq<U>)
    ensures |r| == |s| && forall i :: 0 <= i < |r| ==> r[i] == f(s[i])
  {
    seq(|s|, i requires 0 <= i < |s| => f(s[i]))
  }

  lemma {:induction false} FilterConcat<T>(a: seq<T>, b: seq<T>, f: T -> bool)
    ensures Filter(a + b, f) == Filter(a, f) + Filter(b, f)
    decreases |b|
  {
    if b == [] {
      assert a + b == a;
    } else {
      var n := |b| - 1;
      assert (a + b)[..|a + b| - 1] == a + b[..n];
      FilterConcat(a, b[..n], f);
    }
  }

  lemma FilterOne<T>(x: T, f: T -> bool)
    ensures Filter([x], f) == if f(x) then [x] else []
  {
    assert [x][..0] == [];
    assert Filter([x], f) == Filter([x][..0], f) + if f(x) then [x] else [];
  }

  lemma FilterMiddle<T>(a: seq<T>, x: T, b: seq<T>, f: T -> bool)
    ensures Filter(a + [x] + b, f) == Filter(a, f) + (if f(x) then [x] else []) + Filter(b, f)
  {
    hide Filter;
    FilterConcat(a + [x], b, f);
    FilterConcat(a, [x], f);
    FilterOne(x, f);
  }

  lemma Split<T>(s: seq<T>, k: nat)
    requires k < |s|
    ensures s == s[..k] + [s[k]] + s[k + 1..]
  {}

  /** Filtering a sequence, and the same sequence without its k-th element. */
  lemma FilterSplit<T>(s: seq<T>, k: nat, f: T -> bool)
    requires k < |s|
    ensures Filter(s, f) == Filter(s[..k], f) + (if f(s[k]) then [s[k]] else []) + Filter(s[k + 1..], f)
    ensures Filter(Without(s, k), f) == Filter(s[..k], f) + Filter(s[k + 1..], f)
  {
    hide Filter;
    FilterConcat(s[..k], s[k + 1..], f);
    FilterAround(s, s[..k], s[k], s[k + 1..], f) by { Split(s, k); }
  }

  lemma FilterAround<T>(s: seq<T>, a: seq<T>, x: T, b: seq<T>, f: T -> bool)
    requires s == a + [x] + b
    ensures Filter(s, f) == Filter(a, f) + (if f(x) then [x] else []) + Filter(b, f)
  {
    hide Filter;
    FilterMiddle(a, x, b, f);
  }

  lemma {:induction false} FilterNone<T>(s: seq<T>, f: T -> bool)
    requires forall i :: 0 <= i < |s| ==> !f(s[i])
    ensures Filter(s, f) == []
  {
    if s != [] { FilterNone(s[..|s| - 1], f); }
  }

  lemma {:induction false} FilterAll<T>(s: seq<T>, f: T -> bool)
    requires forall i :: 0 <= i < |s| ==> f(s[i])
    ensures Filter(s, f) == s
  {
    if s != [] { FilterAll(s[..|s| - 1], f); }
  }

  lemma {:induction false} FilterMembers<T>(s: seq<T>, f: T -> bool)
    ensures forall x :: x in Filter(s, f) <==> x in s && f(x)
  {
    if s != [] {
      FilterMembers(s[..|s| - 1], f);
      assert s == s[..|s| - 1] + [s[|s| - 1]];
    }
  }

  lemma FilterMember<T>(s: seq<T>, f: T -> bool, x: T)
    requires x in Filter(s, f)
    ensures x in s && f(x)
  {
    FilterMembers(s, f);
  }

  predicate Distinct<T(==)>(s: seq<T>) {
    forall i, j :: 0 <= i < j < |s| ==> s[i] != s[j]
  }

  /** The elements of a sequence without its k-th. */
  lemma WithoutAt<T>(s: seq<T>, k: nat)
    requires k < |s|
    ensures |Without(s, k)| == |s| - 1
    ensures forall i :: 0 <= i < |s| - 1 ==> Without(s, k)[i] == s[if i < k then i else i + 1]
  {}

  lemma DistinctWithout<T>(s: seq<T>, k: nat)
    requires k < |s| && Distinct(s)
    ensures Distinct(Without(s, k))
  {
    hide Without;
    WithoutAt(s, k);
  }

  lemma MultisetWithout<T>(s: seq<T>, k: nat)
    requires k < |s|
    ensures multiset(s) == multiset{s[k]} + multiset(Without(s, k))
    ensures multiset(Without(s, k)) == multiset(s) - multiset{s[k]}
  {
    assert s == s[..k] + [s[k]] + s[k + 1..];
  }

  lemma TwiceInMultiset<T>(s: seq<T>, i: nat, j: nat)
    requires i < j < |s|
    ensures s[i] == s[j] ==> multiset(s)[s[i]] >= 2
  {
    assert s == s[..j] + s[j..];
    assert s[i] in multiset(s[..j]) by { assert s[..j][i] == s[i]; }
    assert s[j] in multiset(s[j..]) by { assert s[j..][0] == s[j]; }
  }

  lemma DistinctFromMultiset<T>(s: seq<T>)
    requires forall x :: multiset(s)[x] <= 1
    ensures Distinct(s)
  {
    forall i, j | 0 <= i < j < |s| ensures s[i] != s[j] { TwiceInMultiset(s, i, j); }
  }

  /** Rearranged sequences have rearranged images. */
  lemma {:induction false} SameImages<T, U>(a: seq<T>, b: seq<T>, f: T -> U, fa: seq<U>, fb: seq<U>)
    requires multiset(a) == multiset(b)
    requires |fa| == |a| && forall i :: 0 <= i < |a| ==> fa[i] == f(a[i])
    requires |fb| == |b| && forall i :: 0 <= i < |b| ==> fb[i] == f(b[i])
    ensures multiset(fa) == multiset(fb)
    decreases |a|
  {
    if a == [] {
      assert |multiset(b)| == 0;
    } else {
      assert a[0] in multiset(b);
      var k :| 0 <= k < |b| && b[k] == a[0];
      var a', b', fa', fb' := Without(a, 0), Without(b, k), Without(fa, 0), Without(fb, k);
      MultisetWithout(a, 0);
      MultisetWithout(b, k);
      SameImages(a', b', f, fa', fb');
      MultisetWithout(fa, 0);
      MultisetWithout(fb, k);
    }
  }
}
