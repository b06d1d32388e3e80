/** `Array.prototype.filter` on sequences, and the facts that say it keeps
    exactly the satisfying elements in their source order. */
module Sequences {

  /** The elements of `s` that satisfy `p`, in the order they appear in `s`. */
  function Filter<T>(s: seq<T>, p: T -> bool): (r: seq<T>)
    ensures |r| <= |s|
    ensures forall k :: 0 <= k < |r| ==> r[k] in s && p(r[k])
    ensures forall i :: 0 <= i < |s| && p(s[i]) ==> s[i] in r
    ensures (forall i :: 0 <= i < |s| ==> p(s[i])) ==> r == s
    ensures (forall i :: 0 <= i < |s| ==> !p(s[i])) ==> r == []
    decreases |s|
  {
    if |s| == 0 then []
    else if p(s[0]) then [s[0]] + Filter(s[1..], p)
    else Filter(s[1..], p)
  }

  /** Filtering a concatenation filters each part and concatenates the results:
      no element of `a` is ever placed after an element of `b`. */
  lemma {:induction false} FilterAppend<T>(a: seq<T>, b: seq<T>, p: T -> bool)
    ensures Filter(a + b, p) == Filter(a, p) + Filter(b, p)
    decreases |a|
  {
    if |a| == 0 {
      assert a + b == b;
    } else {
      assert (a + b)[0] == a[0];
      assert (a + b)[1..] == a[1..] + b;
      FilterAppend(a[1..], b, p);
    }
  }

  /** The number of elements before index `i` of `s` that satisfy `p`: the
      position at which `s[i]` appears in `Filter(s, p)` when it is kept. */
  function Rank<T>(s: seq<T>, p: T -> bool, i: nat): nat
    requires i <= |s|
  {
    |Filter(s[..i], p)|
  }

  /** A kept element lands at output position `Rank(s, p, i)`. */
  lemma FilterPosition<T>(s: seq<T>, p: T -> bool, i: nat)
    requires i < |s| && p(s[i])
    ensures Rank(s, p, i) < |Filter(s, p)|
    ensures Filter(s, p)[Rank(s, p, i)] == s[i]
  {
    assert s == s[..i] + ([s[i]] + s[i + 1..]);
    FilterAppend(s[..i], [s[i]] + s[i + 1..], p);
    FilterAppend([s[i]], s[i + 1..], p);
    assert Filter([s[i]], p) == [s[i]] by {
      assert [s[i]][1..] == [];
    }
  }

  /** Output positions grow with source positions: a kept element that comes
      earlier in the source comes strictly earlier in the output. */
  lemma RankMonotone<T>(s: seq<T>, p: T -> bool, i: nat, j: nat)
    requires i < j <= |s| && p(s[i])
    ensures Rank(s, p, i) < Rank(s, p, j)
  {
    var t := s[..j];
    assert t == s[..i] + ([s[i]] + s[i + 1..j]);
    FilterAppend(s[..i], [s[i]] + s[i + 1..j], p);
    FilterAppend([s[i]], s[i + 1..j], p);
    assert Filter([s[i]], p) == [s[i]] by {
      assert [s[i]][1..] == [];
    }
  }

  /** Dropping the head of `s` lowers every later rank by one when the head is
      kept, and leaves it unchanged otherwise. */
  lemma RankOfTail<T>(s: seq<T>, p: T -> bool, j: nat)
    requires j < |s|
    ensures Rank(s, p, j + 1) == (if p(s[0]) then 1 else 0) + Rank(s[1..], p, j)
  {
    assert s[..j + 1] == [s[0]] + s[1..][..j];
    FilterAppend([s[0]], s[1..][..j], p);
    assert [s[0]][1..] == [];
  }

  /** Every output position is reached from a kept source position `i`, so
      the output holds nothing beyond the kept elements placed by `Rank`. */
  lemma {:induction false} FilterCovers<T>(s: seq<T>, p: T -> bool, k: nat) returns (i: nat)
    requires k < |Filter(s, p)|
    ensures i < |s| && p(s[i]) && Rank(s, p, i) == k
    decreases |s|
  {
    assert |Filter(s, p)| == (if p(s[0]) then 1 else 0) + |Filter(s[1..], p)|;
    if p(s[0]) && k == 0 {
      assert s[..0] == [];
      i := 0;
    } else {
      var j := FilterCovers(s[1..], p, if p(s[0]) then k - 1 else k);
      RankOfTail(s, p, j);
      i := j + 1;
    }
  }
}
