/** Generic facts about mapping over sequences. */
module Sequences {

  /** `f` applied to every element, in order. */
  function MapSeq<A, B>(f: A -> B, s: seq<A>): (r: seq<B>)
    ensures |r| == |s|
    ensures forall i :: 0 <= i < |s| ==> r[i] == f(s[i])
  {
    seq(|s|, i requires 0 <= i < |s| => f(s[i]))
  }

  lemma MapSeqAppend<A, B>(f: A -> B, a: seq<A>, b: seq<A>)
    ensures MapSeq(f, a + b) == MapSeq(f, a) + MapSeq(f, b)
  {
  }

  /** Mapping a function over two sequences that hold the same elements gives
      two sequences that hold the same elements. */
  lemma {:induction false} MapPreservesPermutation<A, B>(f: A -> B, a: seq<A>, b: seq<A>)
    requires multiset(a) == multiset(b)
    ensures multiset(MapSeq(f, a)) == multiset(MapSeq(f, b))
    decreases |a|
  {
    if |a| == 0 {
      assert |b| == |multiset(b)| == 0;
    } else {
      var x := a[0];
      assert x in multiset(b);
      var j :| 0 <= j < |b| && b[j] == x;
      var rest := b[..j] + b[j + 1..];
      assert b == b[..j] + [x] + b[j + 1..];
      assert a == [x] + a[1..];
      assert multiset(b) == multiset(rest) + multiset{x};
      assert multiset(a) == multiset{x} + multiset(a[1..]);
      assert multiset(a[1..]) == multiset(a) - multiset{x};
      assert multiset(rest) == multiset(b) - multiset{x};
      MapPreservesPermutation(f, a[1..], rest);
      MapSeqAppend(f, [x], a[1..]);
      MapSeqAppend(f, b[..j] + [x], b[j + 1..]);
      MapSeqAppend(f, b[..j], [x]);
      MapSeqAppend(f, b[..j], b[j + 1..]);
    }
  }

  /** A strictly increasing sequence holds no value twice. */
  lemma {:induction false} IncreasingHasNoDuplicates(s: seq<nat>)
    requires forall i, j :: 0 <= i < j < |s| ==> s[i] < s[j]
    ensures forall x :: multiset(s)[x] <= 1
    decreases |s|
  {
    if |s| > 0 {
      IncreasingHasNoDuplicates(s[1..]);
      assert s == [s[0]] + s[1..];
      assert s[0] !in s[1..];
      forall x ensures multiset(s)[x] <= 1 {
        assert multiset(s)[x] == multiset([s[0]])[x] + multiset(s[1..])[x];
      }
    }
  }

  /** A sequence that lists another one's elements back to front holds the
      same elements. */
  lemma {:induction false} ReversalPermutes<A>(a: seq<A>, b: seq<A>)
    requires |a| == |b|
    requires forall k :: 0 <= k < |a| ==> a[k] == b[|b| - 1 - k]
    ensures multiset(a) == multiset(b)
    decreases |a|
  {
    if |a| > 0 {
      var n := |a|;
      ReversalPermutes(a[1..], b[..n - 1]);
      assert a == [a[0]] + a[1..];
      assert b == b[..n - 1] + [b[n - 1]];
    }
  }

  /** Exchanging two elements keeps the elements. */
  lemma SwapPermutes<A>(s: seq<A>, i: nat, j: nat)
    requires i < |s| && j < |s|
    ensures multiset(s[i := s[j]][j := s[i]]) == multiset(s)
  {
    var t := s[i := s[j]];
    assert multiset(t) == multiset(s) - multiset{s[i]} + multiset{s[j]};
  }
}
