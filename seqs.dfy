/** Sequence helpers shared by every layer of the catalog pipeline: the
    order-preserving filter (JavaScript's `Array.prototype.filter`), the
    positions that filter keeps, and absence of duplicates. */
module Seqs {

  /** No element occurs twice. */
  predicate NoDuplicates<T(==)>(s: seq<T>) {
    forall i, j :: 0 <= i < j < |s| ==> s[i] != s[j]
  }

  /** Strictly increasing indices. */
  predicate Increasing(ps: seq<nat>) {
    forall i, j :: 0 <= i < j < |ps| ==> ps[i] < ps[j]
  }

  /** The elements of `s` that satisfy `p`, in their original order. */
  function Filter<T(==,!new)>(s: seq<T>, p: T -> bool): (r: seq<T>)
    ensures |r| <= |s|
    ensures forall x :: x in r <==> x in s && p(x)
  {
    if s == [] then [] else (if p(s[0]) then [s[0]] else []) + Filter(s[1..], p)
  }

  /** The indices `i` with `lo <= i < |s|` whose elements `p` accepts, in
      increasing order. */
  function KeptFrom<T>(s: seq<T>, p: T -> bool, lo: nat): (ps: seq<nat>)
    requires lo <= |s|
    ensures forall k :: 0 <= k < |ps| ==> lo <= ps[k] < |s|
    ensures Increasing(ps)
    ensures forall i: nat :: i in ps <==> lo <= i < |s| && p(s[i])
    decreases |s| - lo
  {
    if lo == |s| then []
    else (if p(s[lo]) then [lo] else []) + KeptFrom(s, p, lo + 1)
  }

  /** The indices of `s` whose elements `p` accepts, in increasing order:
      an independent description of what `Filter` keeps. */
  function Kept<T>(s: seq<T>, p: T -> bool): (ps: seq<nat>)
    ensures Increasing(ps)
    ensures forall i: nat :: i in ps <==> i < |s| && p(s[i])
  {
    KeptFrom(s, p, 0)
  }

  lemma {:induction false} FilterAtKeptFrom<T(!new)>(s: seq<T>, p: T -> bool, lo: nat)
    requires lo <= |s|
    ensures |Filter(s[lo..], p)| == |KeptFrom(s, p, lo)|
    ensures forall k :: 0 <= k < |KeptFrom(s, p, lo)| ==> Filter(s[lo..], p)[k] == s[KeptFrom(s, p, lo)[k]]
    decreases |s| - lo
  {
    if lo < |s| {
      FilterAtKeptFrom(s, p, lo + 1);
      assert s[lo..][0] == s[lo] && s[lo..][1..] == s[lo + 1..];
    }
  }

  /** `Filter` keeps exactly the elements at the positions `Kept` lists, in
      that order. */
  lemma FilterAtKept<T(!new)>(s: seq<T>, p: T -> bool)
    ensures |Filter(s, p)| == |Kept(s, p)|
    ensures forall k :: 0 <= k < |Kept(s, p)| ==> Kept(s, p)[k] < |s| && Filter(s, p)[k] == s[Kept(s, p)[k]]
  {
    FilterAtKeptFrom(s, p, 0);
    assert s[0..] == s;
    var ps := Kept(s, p);
    forall k | 0 <= k < |ps| ensures ps[k] < |s| {
      assert ps[k] in ps;
    }
  }

  /** Filtering distributes over concatenation. */
  lemma {:induction false} FilterAppend<T(!new)>(a: seq<T>, b: seq<T>, p: T -> bool)
    ensures Filter(a + b, p) == Filter(a, p) + Filter(b, p)
  {
    if a == [] {
      assert a + b == b;
    } else {
      assert (a + b)[0] == a[0];
      assert (a + b)[1..] == a[1..] + b;
      FilterAppend(a[1..], b, p);
    }
  }

  /** Filtering a sequence extended by one element extends the result by
      that element exactly when the predicate keeps it. */
  lemma FilterSnoc<T(!new)>(s: seq<T>, x: T, p: T -> bool)
    ensures Filter(s + [x], p) == Filter(s, p) + (if p(x) then [x] else [])
  {
    FilterAppend(s, [x], p);
    assert [x][1..] == [];
  }

  /** Two tests that agree on every element of `s` keep the same elements. */
  lemma {:induction false} FilterCongruent<T(!new)>(s: seq<T>, p: T -> bool, q: T -> bool)
    requires forall x :: x in s ==> p(x) == q(x)
    ensures Filter(s, p) == Filter(s, q)
  {
    if s != [] {
      assert s[0] in s;
      assert forall x :: x in s[1..] ==> x in s;
      FilterCongruent(s[1..], p, q);
    }
  }

  /** A filter that rejects nothing in `s` is the identity on `s`. */
  lemma {:induction false} FilterAll<T(!new)>(s: seq<T>, p: T -> bool)
    requires forall x :: x in s ==> p(x)
    ensures Filter(s, p) == s
  {
    if s != [] {
      assert s[0] in s;
      assert forall x :: x in s[1..] ==> x in s;
      FilterAll(s[1..], p);
    }
  }

  /** A filter that rejects everything in `s` keeps nothing. */
  lemma {:induction false} FilterNone<T(!new)>(s: seq<T>, p: T -> bool)
    requires forall x :: x in s ==> !p(x)
    ensures Filter(s, p) == []
  {
    if s != [] {
      assert s[0] in s;
      assert forall x :: x in s[1..] ==> x in s;
      FilterNone(s[1..], p);
    }
  }

  /** Filtering two elements, written out. */
  lemma FilterTwo<T(!new)>(a: T, b: T, p: T -> bool)
    ensures Filter([a, b], p) == (if p(a) then [a] else []) + (if p(b) then [b] else [])
  {
    assert [a, b][1..] == [b];
    assert [b][1..] == [];
  }

  /** Filtering a sequence without duplicates leaves none. */
  lemma {:induction false} FilterNoDuplicates<T(!new)>(s: seq<T>, p: T -> bool)
    requires NoDuplicates(s)
    ensures NoDuplicates(Filter(s, p))
  {
    if s != [] {
      assert NoDuplicates(s[1..]) by {
        forall i, j | 0 <= i < j < |s[1..]| ensures s[1..][i] != s[1..][j] {
          assert s[1..][i] == s[i + 1] && s[1..][j] == s[j + 1];
        }
      }
      FilterNoDuplicates(s[1..], p);
      var rest := Filter(s[1..], p);
      assert s[0] !in s[1..];
      assert s[0] !in rest;
    }
  }
}
