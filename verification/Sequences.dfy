/** Facts about sequences, whatever they hold. */
module Sequences {
  lemma {:induction false} Associate<T>(a: seq<T>, b: seq<T>, c: seq<T>)
    ensures a + (b + c) == (a + b) + c
  {
  }

  /** A first element, the slice up to `k`, and the rest cut at `j`. */
  lemma {:induction false} FourParts<T>(s: seq<T>, k: nat, j: nat)
    requires 1 <= k <= k + j <= |s|
    ensures s == [s[0]] + s[1..k] + s[k..][..j] + s[k..][j..]
  {
  }

  /** A rest that is itself made of two parts. */
  lemma {:induction false} SplitAt<T>(s: seq<T>, offset: nat, a: seq<T>, b: seq<T>)
    requires offset <= |s| && s[offset..] == a + b
    ensures offset + |a| <= |s| && s[offset + |a|..] == b && s[..offset + |a|] == s[..offset] + a
  {
    assert s == s[..offset] + (a + b);
  }

  function Reversed<T>(s: seq<T>): (r: seq<T>)
    ensures |r| == |s|
    ensures forall i | 0 <= i < |s| :: r[i] == s[|s| - 1 - i]
  {
    seq(|s|, i requires 0 <= i < |s| => s[|s| - 1 - i])
  }
}
