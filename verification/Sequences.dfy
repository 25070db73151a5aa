/** Facts about sequences that several models use. */
module Sequences {
  /** No element twice. */
  predicate Distinct<T(==)>(s: seq<T>) { forall i, j :: 0 <= i < j < |s| ==> s[i] != s[j] }

  lemma DistinctSnoc<T>(s: seq<T>, x: T)
    requires Distinct(s) && x !in s
    ensures Distinct(s + [x])
  {
    forall i | 0 <= i < |s| ensures (s + [x])[i] != (s + [x])[|s|] {
      assert s[i] in s;
    }
  }

  lemma DistinctPrefix<T>(s: seq<T>, n: nat)
    requires Distinct(s) && n < |s|
    ensures Distinct(s[..n]) && s[n] !in s[..n]
  {
  }
}
