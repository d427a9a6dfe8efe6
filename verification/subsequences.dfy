/** Order-preserving subsequences: what `Array.prototype.filter` and the
    replay loop's `leftovers` produce from their input. */
module Subsequences {

  /** `a` is `b` with some elements left out and the others kept in their original order. */
  ghost predicate IsSubseq<X>(a: seq<X>, b: seq<X>)
    decreases |b|
  {
    if a == [] then true
    else if b == [] then false
    else (a[0] == b[0] && IsSubseq(a[1..], b[1..])) || IsSubseq(a, b[1..])
  }

  /** Every element of a subsequence sits in the larger sequence at some position. */
  lemma {:induction false} SubseqPositions<X>(a: seq<X>, b: seq<X>)
    requires IsSubseq(a, b)
    ensures |a| <= |b|
    ensures forall i :: 0 <= i < |a| ==> exists k :: 0 <= k < |b| && b[k] == a[i]
    decreases |b|
  {
    if a == [] {
    } else if a[0] == b[0] && IsSubseq(a[1..], b[1..]) {
      SubseqPositions(a[1..], b[1..]);
      forall i | 0 <= i < |a| ensures exists k :: 0 <= k < |b| && b[k] == a[i] {
        if i == 0 {
          assert b[0] == a[0];
        } else {
          assert a[1..][i - 1] == a[i];
          var k :| 0 <= k < |b[1..]| && b[1..][k] == a[1..][i - 1];
          assert b[k + 1] == a[i];
        }
      }
    } else {
      SubseqPositions(a, b[1..]);
      forall i | 0 <= i < |a| ensures exists k :: 0 <= k < |b| && b[k] == a[i] {
        var k :| 0 <= k < |b[1..]| && b[1..][k] == a[i];
        assert b[k + 1] == a[i];
      }
    }
  }
}
