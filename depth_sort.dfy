/** The depth sort: every live element is paired with its key and its index,
    the pairs are sorted ascending by key, and the elements are gathered in
    the sorted order of their indices. */
module DepthSort {

  /** A sort entry: the element's key and its index before the sort. */
  datatype Keyed = Keyed(key: real, index: nat)

  /** What the comparator `a[0] - b[0]` looks at: the key alone. */
  function EntryKey(k: Keyed): real {
    k.key
  }

  /** Ascending by key. */
  predicate SortedBy<T>(key: T -> real, s: seq<T>) {
    forall i, j :: 0 <= i < j < |s| ==> key(s[i]) <= key(s[j])
  }

  /** Places `x` before the first element whose key is not smaller, so it
      lands ahead of the elements with an equal key. */
  function InsertBy<T>(key: T -> real, x: T, s: seq<T>): (r: seq<T>)
    ensures |r| == |s| + 1
    ensures multiset(r) == multiset(s) + multiset{x}
    ensures r[0] == if |s| == 0 || key(x) <= key(s[0]) then x else s[0]
  {
    if |s| == 0 then [x]
    else if key(x) <= key(s[0]) then [x] + s
    else
      assert s == [s[0]] + s[1..];
      [s[0]] + InsertBy(key, x, s[1..])
  }

  /** Inserting into an ascending sequence keeps it ascending. */
  lemma {:induction false} InsertBySorted<T>(key: T -> real, x: T, s: seq<T>)
    requires SortedBy(key, s)
    ensures SortedBy(key, InsertBy(key, x, s))
    decreases |s|
  {
    if |s| > 0 && key(s[0]) < key(x) {
      var rest := InsertBy(key, x, s[1..]);
      InsertBySorted(key, x, s[1..]);
      assert InsertBy(key, x, s) == [s[0]] + rest;
      assert key(s[0]) <= key(rest[0]);
      forall i, j | 0 <= i < j < |rest| + 1
        ensures key(([s[0]] + rest)[i]) <= key(([s[0]] + rest)[j])
      {
        if i == 0 && j > 1 {
          assert key(rest[0]) <= key(rest[j - 1]);
        }
      }
    }
  }

  /** The stable sort by key, one insertion at a time: each element goes into
      the sorted rest ahead of those with an equal key. */
  function SortBy<T>(key: T -> real, s: seq<T>): (r: seq<T>)
    ensures |r| == |s|
    ensures multiset(r) == multiset(s)
    ensures SortedBy(key, r)
  {
    if |s| == 0 then []
    else
      assert s == [s[0]] + s[1..];
      InsertBySorted(key, s[0], SortBy(key, s[1..]));
      InsertBy(key, s[0], SortBy(key, s[1..]))
  }

  /** The array sort with the comparator `a[0] - b[0]`: ascending by key. The
      comparator never sees the index, and the sort is stable, so entries with
      equal keys keep their order. */
  function SortByKey(s: seq<Keyed>): (r: seq<Keyed>)
    ensures multiset(r) == multiset(s)
    ensures forall i, j :: 0 <= i < j < |r| ==> r[i].key <= r[j].key
  {
    SortBy(EntryKey, s)
  }

  /** Each element paired with its key and its position. */
  function KeyedBy<T>(key: T -> real, s: seq<T>): (r: seq<Keyed>)
    ensures |r| == |s|
    ensures forall p :: 0 <= p < |s| ==> r[p] == Keyed(key(s[p]), p)
  {
    seq(|s|, p requires 0 <= p < |s| => Keyed(key(s[p]), p))
  }

  /** Every entry's index names an element of `s`. */
  predicate IndicesIn<T>(order: seq<Keyed>, s: seq<T>) {
    forall i :: 0 <= i < |order| ==> order[i].index < |s|
  }

  /** The elements of `s` in the order the entries name them. */
  function Gather<T>(s: seq<T>, order: seq<Keyed>): (r: seq<T>)
    requires IndicesIn(order, s)
    ensures |r| == |order|
    ensures forall i :: 0 <= i < |order| ==> r[i] == s[order[i].index]
  {
    seq(|order|, i requires 0 <= i < |order| => s[order[i].index])
  }

  /** Every entry names an element of `s` and carries that element's key. */
  ghost predicate KeysOf<T>(key: T -> real, order: seq<Keyed>, s: seq<T>) {
    forall i :: 0 <= i < |order| ==> order[i].index < |s| && order[i].key == key(s[order[i].index])
  }

  /** Rearranged entries still name elements and carry their keys. */
  lemma KeysOfRearranged<T>(key: T -> real, a: seq<Keyed>, b: seq<Keyed>, s: seq<T>)
    requires KeysOf(key, a, s) && multiset(a) == multiset(b)
    ensures KeysOf(key, b, s)
  {
    forall i | 0 <= i < |b|
      ensures b[i].index < |s| && b[i].key == key(s[b[i].index])
    {
      assert b[i] in multiset(a);
      var p :| 0 <= p < |a| && a[p] == b[i];
    }
  }

  /** Gathering by an entry followed by more entries: the entry's element
      followed by the rest gathered. */
  lemma GatherCons<T>(s: seq<T>, e: Keyed, order: seq<Keyed>)
    requires IndicesIn([e] + order, s)
    ensures e.index < |s| && IndicesIn(order, s)
    ensures Gather(s, [e] + order) == [s[e.index]] + Gather(s, order)
  {
    assert ([e] + order)[0] == e;
    assert forall i :: 0 <= i < |order| ==> order[i] == ([e] + order)[i + 1];
  }

  /** Inserting behind the first element: the first element followed by the
      insertion into the rest. */
  lemma InsertBehind<T>(key: T -> real, x: T, g: seq<T>, inserted: seq<T>)
    requires |g| > 0 && key(g[0]) < key(x)
    requires inserted == InsertBy(key, x, g[1..])
    ensures InsertBy(key, x, g) == [g[0]] + inserted
  {
  }

  /** Inserting an entry and then gathering is gathering and then inserting
      the element the entry names. */
  lemma {:induction false} GatherInsert<T>(key: T -> real, s: seq<T>, e: Keyed, order: seq<Keyed>)
    requires KeysOf(key, order, s) && e.index < |s| && e.key == key(s[e.index])
    requires IndicesIn(InsertBy(EntryKey, e, order), s)
    ensures Gather(s, InsertBy(EntryKey, e, order)) == InsertBy(key, s[e.index], Gather(s, order))
    decreases |order|
  {
    if |order| > 0 {
      var g := Gather(s, order);
      assert order == [order[0]] + order[1..];
      GatherCons(s, order[0], order[1..]);
      if e.key <= order[0].key {
        assert InsertBy(EntryKey, e, order) == [e] + order;
        GatherCons(s, e, order);
      } else {
        var rest := InsertBy(EntryKey, e, order[1..]);
        assert InsertBy(EntryKey, e, order) == [order[0]] + rest;
        GatherCons(s, order[0], rest);
        assert g[1..] == Gather(s, order[1..]);
        GatherInsert(key, s, e, order[1..]);
        InsertBehind(key, s[e.index], g, Gather(s, rest));
      }
    }
  }

  /** One step of the sort: if sorting the entries `tail` and then gathering
      is gathering and then sorting, the same holds with `e` in front. */
  lemma GatherSortStep<T>(key: T -> real, s: seq<T>, e: Keyed, tail: seq<Keyed>, rest: seq<Keyed>)
    requires e.index < |s| && e.key == key(s[e.index]) && KeysOf(key, rest, s)
    requires IndicesIn(tail, s) && Gather(s, rest) == SortBy(key, Gather(s, tail))
    ensures IndicesIn(InsertBy(EntryKey, e, rest), s)
    ensures Gather(s, InsertBy(EntryKey, e, rest)) == SortBy(key, [s[e.index]] + Gather(s, tail))
  {
    var inserted := InsertBy(EntryKey, e, rest);
    forall i | 0 <= i < |inserted|
      ensures inserted[i].index < |s|
    {
      assert inserted[i] in multiset(rest) + multiset{e};
    }
    GatherInsert(key, s, e, rest);
    var g := [s[e.index]] + Gather(s, tail);
    assert g[1..] == Gather(s, tail);
  }

  /** Sorting entries and then gathering is gathering and then sorting the
      elements. */
  lemma {:induction false} GatherSortByKey<T>(key: T -> real, s: seq<T>, order: seq<Keyed>)
    requires KeysOf(key, order, s)
    ensures IndicesIn(SortByKey(order), s)
    ensures Gather(s, SortByKey(order)) == SortBy(key, Gather(s, order))
    decreases |order|
  {
    if |order| > 0 {
      var e, tail := order[0], order[1..];
      var rest := SortByKey(tail);
      assert order == [e] + tail;
      GatherSortByKey(key, s, tail);
      KeysOfRearranged(key, tail, rest, s);
      GatherCons(s, e, tail);
      assert SortByKey(order) == InsertBy(EntryKey, e, rest);
      GatherSortStep(key, s, e, tail, rest);
    }
  }

  /** The keyed sort, gathered, is the stable sort of the elements by key. */
  lemma KeyedSortIsSortBy<T>(key: T -> real, s: seq<T>)
    ensures IndicesIn(SortByKey(KeyedBy(key, s)), s)
    ensures Gather(s, SortByKey(KeyedBy(key, s))) == SortBy(key, s)
  {
    var keyed := KeyedBy(key, s);
    assert KeysOf(key, keyed, s);
    assert Gather(s, keyed) == s;
    GatherSortByKey(key, s, keyed);
  }
}
