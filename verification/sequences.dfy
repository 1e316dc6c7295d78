/** Facts about sequences: regrouping concatenations, prefixes, and counting distinct elements. */
module Sequences {

  lemma Regroup<T>(a: seq<T>, b: seq<T>, c: seq<T>)
    ensures a + (b + c) == a + b + c
  {
  }

  lemma RegroupFour<T>(a: seq<T>, b: seq<T>, c: seq<T>, d: seq<T>)
    ensures a + (b + c + d) == a + b + c + d
    ensures a + (b + (c + d)) == a + b + c + d
  {
  }

  lemma PrefixPlus<T>(s: seq<T>, n: nat)
    requires n < |s|
    ensures s[..n + 1] == s[..n] + [s[n]] && s[..n + 1][..n] == s[..n]
  {
  }

  lemma {:induction false} DistinctFit<T>(s: seq<T>, room: set<T>)
    requires forall i, j :: 0 <= i < j < |s| ==> s[i] != s[j]
    requires forall x :: x in s ==> x in room
    ensures |s| <= |room|
  {
    if s != [] {
      var n := |s| - 1;
      assert forall x :: x in s[..n] ==> x != s[n];
      DistinctFit(s[..n], room - {s[n]});
    }
  }
}
