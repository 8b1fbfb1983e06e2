/**
  Order-preserving filtering and mapping of sequences: the Dafny counterparts
  of Ruby's `Enumerable#select` and `Enumerable#map`.
*/
module Seqs {

  /** `r` can be obtained from `s` by deleting elements, so it keeps their order. */
  ghost predicate IsSubsequence<T>(r: seq<T>, s: seq<T>)
    decreases s
  {
    if r == [] then true
    else if s == [] then false
    else (r[0] == s[0] && IsSubsequence(r[1..], s[1..])) || IsSubsequence(r, s[1..])
  }

  /** `s.select { |x| keep(x) }` */
  function Select<T>(s: seq<T>, keep: T -> bool): (r: seq<T>)
    ensures |r| <= |s|
    ensures IsSubsequence(r, s)
    ensures forall i :: 0 <= i < |r| ==> keep(r[i]) && r[i] in s
    ensures forall i :: 0 <= i < |s| && keep(s[i]) ==> s[i] in r
    ensures (forall i :: 0 <= i < |s| ==> !keep(s[i])) <==> r == []
  {
    if s == [] then []
    else if keep(s[0]) then [s[0]] + Select(s[1..], keep)
    else Select(s[1..], keep)
  }

  /**
    `Select` keeps every occurrence of a kept element and none of the others,
    so with `IsSubsequence` it determines the result even when `s` repeats
    elements.
  */
  lemma {:induction false} SelectCounts<T>(s: seq<T>, keep: T -> bool, x: T)
    ensures multiset(Select(s, keep))[x] == if keep(x) then multiset(s)[x] else 0
  {
    if s != [] {
      SelectCounts(s[1..], keep, x);
      assert s == [s[0]] + s[1..];
      assert multiset(s) == multiset{s[0]} + multiset(s[1..]);
    }
  }

  /** A subsequence holds no element more often than the sequence it is taken from. */
  lemma {:induction false} SubsequenceCounts<T>(r: seq<T>, s: seq<T>, x: T)
    requires IsSubsequence(r, s)
    ensures multiset(r)[x] <= multiset(s)[x]
    decreases s
  {
    if r != [] && s != [] {
      assert s == [s[0]] + s[1..];
      if r[0] == s[0] && IsSubsequence(r[1..], s[1..]) {
        SubsequenceCounts(r[1..], s[1..], x);
        assert r == [r[0]] + r[1..];
      } else {
        SubsequenceCounts(r, s[1..], x);
      }
    }
  }

  /**
    The properties of `Select` determine it: a subsequence of `s` holding
    every occurrence of each kept element and nothing else is `Select(s, keep)`.
  */
  lemma {:induction false} SelectUnique<T>(r: seq<T>, s: seq<T>, keep: T -> bool)
    requires IsSubsequence(r, s)
    requires forall x :: x in s ==> multiset(r)[x] == if keep(x) then multiset(s)[x] else 0
    ensures r == Select(s, keep)
    decreases s
  {
    if s == [] {
      assert r == [];
    } else {
      var rest := s[1..];
      assert s == [s[0]] + rest;
      assert multiset(s) == multiset{s[0]} + multiset(rest);
      if r != [] && r[0] == s[0] && IsSubsequence(r[1..], rest) && keep(s[0]) {
        assert r == [r[0]] + r[1..];
        forall x | x in rest
          ensures multiset(r[1..])[x] == if keep(x) then multiset(rest)[x] else 0
        {
          assert multiset(r) == multiset{r[0]} + multiset(r[1..]);
        }
        SelectUnique(r[1..], rest, keep);
      } else {
        // `r` skips `s[0]`, so `s[0]` occurs in `r` less often than in `s`.
        assert r == [] || IsSubsequence(r, rest);
        SubsequenceCounts(r, rest, s[0]);
        if keep(s[0]) {
          assert false;
        }
        forall x | x in rest
          ensures multiset(r)[x] == if keep(x) then multiset(rest)[x] else 0
        {
        }
        SelectUnique(r, rest, keep);
      }
    }
  }

  /** `s.map { |x| f(x) }` */
  function Map<T, U>(s: seq<T>, f: T -> U): (r: seq<U>)
    ensures |r| == |s|
    ensures forall i :: 0 <= i < |s| ==> r[i] == f(s[i])
  {
    if s == [] then [] else [f(s[0])] + Map(s[1..], f)
  }
}
