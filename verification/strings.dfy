/**
 Python's `sep.join(items)` and the facts that say where every item and every
 separator lands in the joined text.
 */
module Strings {

  /** `sep.join(xs)`: the items in order, with `sep` between neighbours. */
  function Join(sep: string, xs: seq<string>): string
    decreases |xs|
  {
    if |xs| == 0 then ""
    else if |xs| == 1 then xs[0]
    else xs[0] + sep + Join(sep, xs[1..])
  }

  /** Where item `i` starts in `Join(sep, xs)`: every earlier item plus one separator each. */
  function JoinOffset(sep: string, xs: seq<string>, i: nat): nat
    requires i < |xs|
    decreases i
  {
    if i == 0 then 0 else |xs[0]| + |sep| + JoinOffset(sep, xs[1..], i - 1)
  }

  /** The offsets grow by one item and one separator at a time. */
  lemma {:induction false} JoinOffsetStep(sep: string, xs: seq<string>, i: nat)
    requires i + 1 < |xs|
    ensures JoinOffset(sep, xs, i + 1) == JoinOffset(sep, xs, i) + |xs[i]| + |sep|
    decreases i
  {
    if i > 0 {
      JoinOffsetStep(sep, xs[1..], i - 1);
      assert xs[1..][i - 1] == xs[i];
    }
  }

  /** From item `i`'s offset on, the joined text is the join of the items from `i` on. */
  lemma {:induction false} JoinTail(sep: string, xs: seq<string>, i: nat)
    requires i < |xs|
    ensures JoinOffset(sep, xs, i) <= |Join(sep, xs)|
    ensures Join(sep, xs)[JoinOffset(sep, xs, i)..] == Join(sep, xs[i..])
    decreases i
  {
    if i == 0 {
      assert xs[0..] == xs;
    } else {
      var j := Join(sep, xs);
      var rest := Join(sep, xs[1..]);
      var k := |xs[0]| + |sep|;
      assert j == xs[0] + sep + rest;
      assert j[k..] == rest;
      JoinTail(sep, xs[1..], i - 1);
      assert xs[1..][i - 1..] == xs[i..];
      var o := JoinOffset(sep, xs[1..], i - 1);
      assert j[k + o..] == rest[o..];
    }
  }

  /** Item `i` sits at `JoinOffset(sep, xs, i)`; a separator follows it and the next item
      starts right after, unless it is the last item, which ends the text. */
  lemma JoinPlacesItem(sep: string, xs: seq<string>, i: nat)
    requires i < |xs|
    ensures JoinOffset(sep, xs, i) + |xs[i]| <= |Join(sep, xs)|
    ensures Join(sep, xs)[JoinOffset(sep, xs, i)..JoinOffset(sep, xs, i) + |xs[i]|] == xs[i]
    ensures i + 1 < |xs| ==>
              && JoinOffset(sep, xs, i + 1) == JoinOffset(sep, xs, i) + |xs[i]| + |sep|
              && JoinOffset(sep, xs, i + 1) <= |Join(sep, xs)|
              && Join(sep, xs)[JoinOffset(sep, xs, i) + |xs[i]|..JoinOffset(sep, xs, i + 1)] == sep
    ensures i + 1 == |xs| ==> JoinOffset(sep, xs, i) + |xs[i]| == |Join(sep, xs)|
  {
    JoinTail(sep, xs, i);
    var j, o, t := Join(sep, xs), JoinOffset(sep, xs, i), Join(sep, xs[i..]);
    if i + 1 < |xs| {
      JoinOffsetStep(sep, xs, i);
      assert xs[i..][0] == xs[i] && xs[i..][1..] == xs[i + 1..];
      assert t == xs[i] + sep + Join(sep, xs[i + 1..]);
      SliceOfTail(j, o, t, 0, |xs[i]|);
      SliceOfTail(j, o, t, |xs[i]|, |xs[i]| + |sep|);
      assert t[0..|xs[i]|] == xs[i];
      assert t[|xs[i]|..|xs[i]| + |sep|] == sep;
    } else {
      assert xs[i..] == [xs[i]];
      SliceOfTail(j, o, t, 0, |t|);
      assert t[0..|t|] == t;
    }
  }

  /** A stretch of a text's tail is the same stretch of the text, shifted. */
  lemma SliceOfTail(s: string, o: nat, t: string, a: nat, b: nat)
    requires o <= |s| && s[o..] == t && a <= b <= |t|
    ensures o + b <= |s| && s[o + a..o + b] == t[a..b]
  {
    assert forall k | a <= k < b :: s[o + a..o + b][k - a] == t[k];
  }
}
