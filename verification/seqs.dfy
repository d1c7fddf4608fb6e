/**
 * Facts about sequences in general, stated for any element type so that the
 * solver reasons about positions rather than about the elements.
 */
module Seqs {
  /** Membership in a non-empty sequence, split at its last element. */
  lemma InLast<T>(s: seq<T>, x: T)
    requires s != []
    ensures x in s <==> x in s[..|s| - 1] || x == s[|s| - 1]
  {
    assert s == s[..|s| - 1] + [s[|s| - 1]];
  }

  lemma AppendLast<T>(a: seq<T>, s: seq<T>)
    requires s != []
    ensures a + s[..|s| - 1] + [s[|s| - 1]] == a + s
  {
    assert s == s[..|s| - 1] + [s[|s| - 1]];
  }

  /** Extending a prefix of `s` by one element, after any sequence `a`. */
  lemma AppendPrefixStep<T>(a: seq<T>, s: seq<T>, j: nat)
    requires j < |s|
    ensures a + s[..j] + [s[j]] == a + s[..j + 1]
  {
    assert s[..j + 1] == s[..j] + [s[j]];
  }

  lemma PrefixStep<T>(s: seq<T>, i: nat)
    requires i < |s|
    ensures s[..i + 1][..i] == s[..i] && s[..i + 1][i] == s[i]
  {
  }

  lemma PrefixWhole<T>(s: seq<T>)
    ensures s[..|s|] == s
  {
  }

  /** A sequence computed pointwise from a non-empty one is the image of its head
      followed by the image of its tail. */
  lemma PointwiseCons<A, B>(xs: seq<A>, ys: seq<B>, zs: seq<B>, f: A -> B)
    requires xs != []
    requires |ys| == |xs| && forall i :: 0 <= i < |xs| ==> ys[i] == f(xs[i])
    requires |zs| == |xs| - 1 && forall i :: 0 <= i < |zs| ==> zs[i] == f(xs[1..][i])
    ensures ys == [f(xs[0])] + zs
  {
    forall i | 0 <= i < |zs| ensures zs[i] == ys[i + 1] {
      assert xs[1..][i] == xs[i + 1];
    }
  }
}
