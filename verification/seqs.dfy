/** Facts about prefixes and concatenations of sequences that the proofs
    about step logs use. */
module Seqs {

  /** A prefix reaching into the second part of a concatenation. */
  lemma PrefixOfAppend<X>(a: seq<X>, b: seq<X>, k: nat)
    requires k <= |b|
    ensures (a + b)[..|a| + k] == a + b[..k]
  {
  }

  /** A prefix that stays within the first part of a concatenation. */
  lemma PrefixWithin<X>(a: seq<X>, b: seq<X>, k: nat)
    requires k <= |a|
    ensures (a + b)[..k] == a[..k]
  {
  }

  lemma AppendAssoc<X>(a: seq<X>, b: seq<X>, c: seq<X>)
    ensures a + b + c == a + (b + c)
  {
  }

  /** Appending the next element of `p` to `a` followed by a prefix of `p`
      gives `a` followed by the prefix one longer. */
  lemma Extend<X>(a: seq<X>, p: seq<X>, k: nat)
    requires k < |p|
    ensures a + p[..0] == a
    ensures a + p[..k] + [p[k]] == a + p[..k + 1]
  {
  }

  /** Appending two steps one at a time, then a tail, is appending the pair
      and the tail at once. */
  lemma AppendTwo<X>(a: seq<X>, x: X, y: X, c: seq<X>)
    ensures a + [x] + [y] == a + [x, y]
    ensures a + [x] + [y] + c == a + ([x, y] + c)
  {
  }

  /** An element absent from `front` that occurs in `back` only at `i` is in
      a prefix of `front + back` exactly when the prefix reaches past it. */
  lemma OnlyAt<X>(front: seq<X>, back: seq<X>, x: X, i: nat, k: nat)
    requires x !in front && i < |back| && back[i] == x
    requires forall j :: 0 <= j < |back| && j != i ==> back[j] != x
    requires k <= |front| + |back|
    ensures x in (front + back)[..k] <==> k > |front| + i
  {
    var t := (front + back)[..k];
    if k > |front| + i {
      assert t[|front| + i] == x;
    } else {
      forall j | 0 <= j < k
        ensures t[j] != x
      {
        if j < |front| {
          assert t[j] == front[j];
        } else {
          assert t[j] == back[j - |front|];
        }
      }
    }
  }
}
