/**
 * The host's ordered arrays, as the runtime uses them: entries in
 * insertion order, each with an integer key, and the key the next append
 * takes.  Lists built by the runtime have keys 0, 1, 2, ...; filtering
 * keeps the surviving keys, so later lookups by key can miss.
 */
module PhpArrays {
  import opened Wrappers

  datatype PhpArray<T> = PhpArray(entries: seq<(int, T)>, nextKey: int)

  /** Distinct non-negative keys, all below the next free key. */
  predicate Wf<T>(a: PhpArray<T>)
  {
    && 0 <= a.nextKey
    && (forall i :: 0 <= i < |a.entries| ==> 0 <= a.entries[i].0 < a.nextKey)
    && (forall i, j :: 0 <= i < j < |a.entries| ==> a.entries[i].0 != a.entries[j].0)
  }

  function Count<T>(a: PhpArray<T>): nat
  {
    |a.entries|
  }

  function Values<T>(a: PhpArray<T>): (vs: seq<T>)
    ensures |vs| == |a.entries|
    ensures forall i :: 0 <= i < |vs| ==> vs[i] == a.entries[i].1
  {
    seq(|a.entries|, i requires 0 <= i < |a.entries| => a.entries[i].1)
  }

  function Keys<T>(a: PhpArray<T>): (ks: seq<int>)
    ensures |ks| == |a.entries|
    ensures forall i :: 0 <= i < |ks| ==> ks[i] == a.entries[i].0
  {
    seq(|a.entries|, i requires 0 <= i < |a.entries| => a.entries[i].0)
  }

  /** The list vs with keys 0 .. |vs| - 1, as a literal or a re-indexing builds it. */
  function List<T>(vs: seq<T>): (a: PhpArray<T>)
    ensures Wf(a) && Values(a) == vs && a.nextKey == |vs|
    ensures forall i :: 0 <= i < |vs| ==> a.entries[i].0 == i
  {
    PhpArray(seq(|vs|, i requires 0 <= i < |vs| => (i, vs[i])), |vs|)
  }

  /** The value stored under key k, if any. */
  function Lookup<T>(a: PhpArray<T>, k: int): (r: Option<T>)
    ensures r.Some? <==> exists i :: 0 <= i < |a.entries| && a.entries[i].0 == k
    ensures Wf(a) ==> forall i :: 0 <= i < |a.entries| && a.entries[i].0 == k ==> r == Some(a.entries[i].1)
    ensures r.Some? ==> r.value in Values(a)
  {
    LookupFrom(a.entries, k)
  }

  function LookupFrom<T>(entries: seq<(int, T)>, k: int): (r: Option<T>)
    ensures r.Some? <==> exists i :: 0 <= i < |entries| && entries[i].0 == k
    ensures r.Some? ==> exists i :: 0 <= i < |entries| && entries[i] == (k, r.value)
    ensures (forall i, j :: 0 <= i < j < |entries| ==> entries[i].0 != entries[j].0) ==>
              forall i :: 0 <= i < |entries| && entries[i].0 == k ==> r == Some(entries[i].1)
  {
    if |entries| == 0 then None
    else if entries[0].0 == k then Some(entries[0].1)
    else
      var r := LookupFrom(entries[1..], k);
      assert forall i :: 0 < i < |entries| ==> entries[i] == entries[1..][i - 1];
      r
  }

  /** The smallest key above every key in entries, and 0 for none: the next free key of an array built entry by entry. */
  function NextAfter<T>(entries: seq<(int, T)>): (n: int)
    ensures 0 <= n
    ensures forall i :: 0 <= i < |entries| ==> entries[i].0 < n
  {
    if |entries| == 0 then 0
    else
      var rest := NextAfter(entries[1..]);
      assert forall i :: 0 < i < |entries| ==> entries[i] == entries[1..][i - 1];
      if entries[0].0 + 1 > rest then entries[0].0 + 1 else rest
  }

  /** array_push: v goes under the next free key, which moves on by one. */
  function Pushed<T>(a: PhpArray<T>, v: T): (b: PhpArray<T>)
    requires Wf(a)
    ensures Wf(b) && Count(b) == Count(a) + 1
    ensures Values(b) == Values(a) + [v]
    ensures Keys(b) == Keys(a) + [a.nextKey]
  {
    PhpArray(a.entries + [(a.nextKey, v)], a.nextKey + 1)
  }

  /**
   * array_pop: the last entry goes; when its key was the last one handed
   * out, the next free key steps back to it.  An empty array is unchanged.
   */
  function Popped<T>(a: PhpArray<T>): (b: PhpArray<T>)
    requires Wf(a)
    ensures Wf(b)
    ensures Count(a) == 0 ==> b == a
    ensures Count(a) > 0 ==>
              Count(b) == Count(a) - 1 && Values(b) == Values(a)[..Count(a) - 1] && Keys(b) == Keys(a)[..Count(a) - 1]
  {
    if |a.entries| == 0 then a
    else
      var last := a.entries[|a.entries| - 1].0;
      PhpArray(a.entries[..|a.entries| - 1], if last == a.nextKey - 1 then a.nextKey - 1 else a.nextKey)
  }

  /**
   * array_shift: the first entry goes and the rest are re-indexed from 0,
   * the next free key becoming their count.  An empty array is returned
   * from early, next free key included.
   */
  function Shifted<T>(a: PhpArray<T>): (b: PhpArray<T>)
    requires Wf(a)
    ensures Wf(b)
    ensures Count(a) == 0 ==> b == a
    ensures Count(a) > 0 ==> Values(b) == Values(a)[1..] && b == List(Values(b))
  {
    if |a.entries| == 0 then a else List(Values(a)[1..])
  }

  /** array_unshift: v becomes the first element and every element is re-indexed from 0. */
  function Unshifted<T>(a: PhpArray<T>, v: T): (b: PhpArray<T>)
    ensures Wf(b) && Count(b) == Count(a) + 1
    ensures Values(b) == [v] + Values(a)
    ensures b == List(Values(b))
  {
    List([v] + Values(a))
  }

  /** array_reverse without preserved keys. */
  function Reversed<T>(a: PhpArray<T>): (b: PhpArray<T>)
    ensures Wf(b) && Count(b) == Count(a)
    ensures forall i :: 0 <= i < Count(a) ==> Values(b)[i] == Values(a)[Count(a) - 1 - i]
  {
    List(seq(|a.entries|, i requires 0 <= i < |a.entries| => a.entries[|a.entries| - 1 - i].1))
  }

  /** array_merge of two integer-keyed arrays: the elements of a, then those of b, re-indexed. */
  function Merged<T>(a: PhpArray<T>, b: PhpArray<T>): (c: PhpArray<T>)
    ensures Wf(c) && Values(c) == Values(a) + Values(b)
  {
    List(Values(a) + Values(b))
  }

  /**
   * The [lo, hi) window array_slice selects from count elements: a
   * negative offset counts from the end (clamped at 0), an offset beyond
   * the end selects nothing; a missing length runs to the end, a negative
   * one stops that many elements before the end.
   */
  function SliceWindow(count: nat, offset: int, length: Option<int>): (w: (nat, nat))
    ensures w.0 <= w.1 <= count
  {
    if offset > count then (count, count)
    else
      var start: nat := if offset < 0 then (if count + offset < 0 then 0 else count + offset) else offset;
      var len := if length.None? then count - start
                 else if length.value < 0 then count - start + length.value
                 else if start + length.value > count then count - start
                 else length.value;
      if len <= 0 then (start, start) else (start, start + len)
  }

  /** array_slice without preserved keys. */
  function Sliced<T>(a: PhpArray<T>, offset: int, length: Option<int>): (b: PhpArray<T>)
    ensures Wf(b)
    ensures var w := SliceWindow(Count(a), offset, length); Values(b) == Values(a)[w.0..w.1]
  {
    var w := SliceWindow(|a.entries|, offset, length);
    List(Values(a)[w.0..w.1])
  }

  /** The entries whose flag in keep is set, under their original keys. */
  function KeptEntries<T>(entries: seq<(int, T)>, keep: seq<bool>): (r: seq<(int, T)>)
    requires |keep| == |entries|
    ensures forall x :: x in r ==> exists i :: 0 <= i < |entries| && keep[i] && entries[i] == x
    ensures forall i :: 0 <= i < |entries| && keep[i] ==> entries[i] in r
    ensures |r| <= |entries|
    ensures (forall i, j :: 0 <= i < j < |entries| ==> entries[i].0 != entries[j].0) ==>
              forall i, j :: 0 <= i < j < |r| ==> r[i].0 != r[j].0
  {
    if |entries| == 0 then []
    else
      var rest := KeptEntries(entries[1..], keep[1..]);
      assert forall i :: 0 < i < |entries| ==> entries[i] == entries[1..][i - 1];
      if keep[0] then
        assert (forall i, j :: 0 <= i < j < |entries| ==> entries[i].0 != entries[j].0) ==>
                 forall x :: x in rest ==> x.0 != entries[0].0;
        [entries[0]] + rest
      else rest
  }

  /** array_filter: the entries whose flag is set, keys preserved. */
  function Filtered<T>(a: PhpArray<T>, keep: seq<bool>): (b: PhpArray<T>)
    requires Wf(a) && |keep| == Count(a)
    ensures Wf(b) && Count(b) <= Count(a)
    ensures forall j :: 0 <= j < Count(b) ==> b.entries[j] in a.entries
    ensures forall i :: 0 <= i < Count(a) && keep[i] ==> Lookup(b, a.entries[i].0) == Some(a.entries[i].1)
    ensures forall i :: 0 <= i < Count(a) && !keep[i] ==> Lookup(b, a.entries[i].0) == None
  {
    var kept := KeptEntries(a.entries, keep);
    var b := PhpArray(kept, NextAfter(kept));
    forall j | 0 <= j < |kept|
      ensures kept[j] in a.entries
    {
      assert kept[j] in kept;
      var i :| 0 <= i < |a.entries| && keep[i] && a.entries[i] == kept[j];
    }
    assert Wf(b);
    forall i | 0 <= i < Count(a) && keep[i]
      ensures Lookup(b, a.entries[i].0) == Some(a.entries[i].1)
    {
      var j :| 0 <= j < |kept| && kept[j] == a.entries[i];
    }
    forall i | 0 <= i < Count(a) && !keep[i]
      ensures Lookup(b, a.entries[i].0) == None
    {
      forall j | 0 <= j < |kept|
        ensures kept[j].0 != a.entries[i].0
      {
        assert kept[j] in kept;
        var i' :| 0 <= i' < |a.entries| && keep[i'] && a.entries[i'] == kept[j];
      }
    }
    b
  }

  /** array_map over one array: the i-th value replaced by vs[i], keys preserved. */
  function Mapped<T>(a: PhpArray<T>, vs: seq<T>): (b: PhpArray<T>)
    requires Wf(a) && |vs| == Count(a)
    ensures Wf(b) && Keys(b) == Keys(a) && Values(b) == vs
  {
    var entries := seq(|vs|, i requires 0 <= i < |vs| => (a.entries[i].0, vs[i]));
    PhpArray(entries, NextAfter(entries))
  }

  /* ---------- Round trips ---------- */

  /** array_pop undoes array_push exactly, next free key included. */
  lemma PopUndoesPush<T>(a: PhpArray<T>, v: T)
    requires Wf(a)
    ensures Popped(Pushed(a, v)) == a
  {
    var b := Pushed(a, v);
    assert b.entries[..|b.entries| - 1] == a.entries;
  }

  /** array_shift undoes array_unshift, up to re-indexing from 0. */
  lemma ShiftUndoesUnshift<T>(a: PhpArray<T>, v: T)
    ensures Values(Shifted(Unshifted(a, v))) == Values(a)
    ensures Shifted(Unshifted(a, v)) == List(Values(a))
  {
    assert ([v] + Values(a))[1..] == Values(a);
  }

  /**
   * Shifting an emptied array keeps its next free key: after a filter
   * leaves key 1 and a pop empties the array, a shift and a push store
   * under key 1, so key 0 stays unset.
   */
  lemma EmptyShiftKeepsNextKey()
    ensures var b := Pushed(Shifted(Popped(PhpArray([(1, 2)], 2))), 7);
            Lookup(b, 0) == None && Lookup(b, 1) == Some(7)
  {
    var a := Popped(PhpArray([(1, 2)], 2));
    assert a == PhpArray([], 1);
    var b := Pushed(Shifted(a), 7);
    assert b.entries == [(1, 7)];
  }

  /** Reversing twice gives back the values in their order. */
  lemma ReverseInvolutive<T>(a: PhpArray<T>)
    ensures Values(Reversed(Reversed(a))) == Values(a)
  {
    var b := Reversed(a);
    var c := Reversed(b);
    forall i | 0 <= i < Count(a)
      ensures Values(c)[i] == Values(a)[i]
    {
      assert Values(c)[i] == Values(b)[Count(a) - 1 - i];
    }
  }
}
