/** Sequence helpers: `Array.prototype.filter` and the subsequence relation it establishes. */
module Seqs {

  /** `r` can be obtained from `s` by deleting elements, keeping the order of the rest. */
  ghost predicate Subsequence<T>(r: seq<T>, s: seq<T>)
    decreases |s|
  {
    r == [] || (s != [] && ((r[0] == s[0] && Subsequence(r[1..], s[1..])) || Subsequence(r, s[1..])))
  }

  /** `s.filter(P)`: the elements of `s` that satisfy `P`, in their original order. */
  function Filter<T>(s: seq<T>, P: T -> bool): (r: seq<T>)
    ensures |r| <= |s|
    ensures forall i :: 0 <= i < |r| ==> r[i] in s && P(r[i])
    ensures forall i :: 0 <= i < |s| && P(s[i]) ==> s[i] in r
    ensures Subsequence(r, s)
  {
    if s == [] then []
    else if P(s[0]) then
      var rest := Filter(s[1..], P);
      assert ([s[0]] + rest)[1..] == rest;
      [s[0]] + rest
    else Filter(s[1..], P)
  }

  /** A filter whose predicate accepts every element returns the sequence unchanged. */
  lemma {:induction false} FilterAll<T>(s: seq<T>, P: T -> bool)
    requires forall i :: 0 <= i < |s| ==> P(s[i])
    ensures Filter(s, P) == s
  {
    if s != [] {
      FilterAll(s[1..], P);
    }
  }

  /** Filtering distributes over concatenation. */
  lemma {:induction false} FilterAppend<T>(a: seq<T>, b: seq<T>, P: T -> bool)
    ensures Filter(a + b, P) == Filter(a, P) + Filter(b, P)
  {
    if a == [] {
      assert a + b == b;
    } else {
      assert (a + b)[1..] == a[1..] + b;
      FilterAppend(a[1..], b, P);
    }
  }

  /** The elements of a subsequence are elements of the sequence. */
  lemma {:induction false} SubsequenceMembers<T>(r: seq<T>, s: seq<T>)
    requires Subsequence(r, s)
    ensures forall i :: 0 <= i < |r| ==> r[i] in s
    decreases |s|
  {
    if r != [] {
      if r[0] == s[0] && Subsequence(r[1..], s[1..]) {
        SubsequenceMembers(r[1..], s[1..]);
        forall i | 0 <= i < |r| ensures r[i] in s {
          if i > 0 { assert r[i] == r[1..][i - 1]; }
        }
      } else {
        SubsequenceMembers(r, s[1..]);
      }
    }
  }

  /** `Filter` keeps every copy of an accepted element and no copy of a rejected one. */
  lemma {:induction false} FilterMultiset<T>(s: seq<T>, P: T -> bool)
    ensures forall x :: multiset(Filter(s, P))[x] == if P(x) then multiset(s)[x] else 0
  {
    if s != [] {
      FilterMultiset(s[1..], P);
      assert s == [s[0]] + s[1..];
      assert multiset(s) == multiset{s[0]} + multiset(s[1..]);
      if P(s[0]) {
        assert Filter(s, P) == [s[0]] + Filter(s[1..], P);
        assert multiset(Filter(s, P)) == multiset{s[0]} + multiset(Filter(s[1..], P));
      }
    }
  }

  /** A filter whose predicate rejects every element returns nothing. */
  lemma {:induction false} FilterNone<T>(s: seq<T>, P: T -> bool)
    requires forall i :: 0 <= i < |s| ==> !P(s[i])
    ensures Filter(s, P) == []
  {
    if s != [] {
      FilterNone(s[1..], P);
    }
  }

  /** Filters whose predicates agree on the elements of `s` agree on `s`. */
  lemma {:induction false} FilterExt<T>(s: seq<T>, P: T -> bool, Q: T -> bool)
    requires forall i :: 0 <= i < |s| ==> P(s[i]) == Q(s[i])
    ensures Filter(s, P) == Filter(s, Q)
  {
    if s != [] {
      FilterExt(s[1..], P, Q);
    }
  }
}
