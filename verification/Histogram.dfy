/** The sparse size histogram, against the dense array of 4096 counters it stands for. */
module Histogram {
  import opened Lists

  const MAX_SIZE: nat := 4096
  const CAP: nat := 64

  datatype Mode = Mode(size: nat, count: nat)

  datatype Hist = Hist(entries: seq<Mode>, overflow: bool, total: nat)

  const EMPTY: Hist := Hist([], false, 0)

  // ----- sums over entries -----

  function Total(es: seq<Mode>): nat {
    if es == [] then 0 else Total(es[..|es| - 1]) + es[|es| - 1].count
  }

  /** The dense counter of size x. */
  function CountAt(es: seq<Mode>, x: nat): nat {
    if es == [] then 0
    else CountAt(es[..|es| - 1], x) + if es[|es| - 1].size == x then es[|es| - 1].count else 0
  }

  /** The events of size x or less. */
  function Cum(es: seq<Mode>, x: int): nat {
    if es == [] then 0
    else Cum(es[..|es| - 1], x) + if es[|es| - 1].size <= x then es[|es| - 1].count else 0
  }

  /** The same, as a walk over the dense counters. */
  function DenseCum(es: seq<Mode>, x: int): nat
    decreases x + 1
  {
    if x < 0 then 0 else DenseCum(es, x - 1) + CountAt(es, x)
  }

  lemma {:induction false} CumStep(es: seq<Mode>, x: nat)
    ensures Cum(es, x) == Cum(es, x - 1) + CountAt(es, x)
  {
    if es != [] {
      CumStep(es[..|es| - 1], x);
    }
  }

  lemma {:induction false} CumNone(es: seq<Mode>)
    ensures Cum(es, -1) == 0
  {
    if es != [] {
      CumNone(es[..|es| - 1]);
    }
  }

  lemma {:induction false} CumIsDense(es: seq<Mode>, x: int)
    requires x >= -1
    ensures Cum(es, x) == DenseCum(es, x)
    decreases x + 1
  {
    if x < 0 {
      CumNone(es);
    } else {
      CumStep(es, x);
      CumIsDense(es, x - 1);
    }
  }

  lemma {:induction false} TotalConcat(a: seq<Mode>, b: seq<Mode>)
    ensures Total(a + b) == Total(a) + Total(b)
    decreases |b|
  {
    if b == [] {
      assert a + b == a;
    } else {
      assert (a + b)[..|a + b| - 1] == a + b[..|b| - 1];
      TotalConcat(a, b[..|b| - 1]);
    }
  }

  lemma {:induction false} CumConcat(a: seq<Mode>, b: seq<Mode>, x: int)
    ensures Cum(a + b, x) == Cum(a, x) + Cum(b, x)
    decreases |b|
  {
    if b == [] {
      assert a + b == a;
    } else {
      assert (a + b)[..|a + b| - 1] == a + b[..|b| - 1];
      CumConcat(a, b[..|b| - 1], x);
    }
  }

  lemma {:induction false} CumAll(es: seq<Mode>, x: int)
    requires forall e :: e in es ==> e.size <= x
    ensures Cum(es, x) == Total(es)
  {
    if es != [] {
      assert es[|es| - 1] in es;
      CumAll(es[..|es| - 1], x);
    }
  }

  lemma {:induction false} CumNoneBelow(es: seq<Mode>, x: int)
    requires forall e :: e in es ==> e.size > x
    ensures Cum(es, x) == 0
  {
    if es != [] {
      assert es[|es| - 1] in es;
      CumNoneBelow(es[..|es| - 1], x);
    }
  }

  // ----- recording -----

  /** The tracked sizes are distinct and below 4096, with positive counts; without overflow every
      event is in some count. */
  ghost predicate Sound(h: Hist) {
    |h.entries| <= CAP && DistinctSizes(h.entries) &&
    (forall i :: 0 <= i < |h.entries| ==> h.entries[i].size < MAX_SIZE && h.entries[i].count > 0) &&
    Total(h.entries) <= h.total && (!h.overflow ==> Total(h.entries) == h.total)
  }

  ghost predicate DistinctSizes(es: seq<Mode>) {
    forall i, j :: 0 <= i < j < |es| ==> es[i].size != es[j].size
  }

  /** The position of size in the entries, or |es|. */
  function Find(es: seq<Mode>, size: nat, i: nat := 0): (k: nat)
    requires i <= |es|
    ensures i <= k <= |es| && (k < |es| ==> es[k].size == size) && forall j :: i <= j < k ==> es[j].size != size
    decreases |es| - i
  {
    if i == |es| || es[i].size == size then i else Find(es, size, i + 1)
  }

  function Recorded(h: Hist, size: nat): Hist {
    if size >= MAX_SIZE then h
    else
      var k := Find(h.entries, size);
      if k < |h.entries| then
        Hist(h.entries[k := Mode(size, h.entries[k].count + 1)], h.overflow, h.total + 1)
      else if |h.entries| < CAP then Hist(h.entries + [Mode(size, 1)], h.overflow, h.total + 1)
      else Hist(h.entries, true, h.total + 1)
  }

  lemma {:induction false} TotalBump(es: seq<Mode>, k: nat, e: Mode)
    requires k < |es| && e.size == es[k].size && e.count == es[k].count + 1
    ensures Total(es[k := e]) == Total(es) + 1
    ensures forall x :: CountAt(es[k := e], x) == CountAt(es, x) + if x == e.size then 1 else 0
  {
    var n := es[k := e];
    if k == |es| - 1 {
      assert n[..|n| - 1] == es[..|es| - 1];
    } else {
      assert n[..|n| - 1] == es[..|es| - 1][k := e];
      TotalBump(es[..|es| - 1], k, e);
    }
  }

  lemma {:induction false} CountAtFresh(es: seq<Mode>, x: nat)
    requires forall i :: 0 <= i < |es| ==> es[i].size != x
    ensures CountAt(es, x) == 0
  {
    if es != [] {
      CountAtFresh(es[..|es| - 1], x);
    }
  }

  lemma {:induction false} CountAtTracked(es: seq<Mode>, k: nat)
    requires k < |es| && DistinctSizes(es)
    ensures CountAt(es, es[k].size) == es[k].count
  {
    var x := es[k].size;
    if k == |es| - 1 {
      CountAtFresh(es[..|es| - 1], x);
    } else {
      CountAtTracked(es[..|es| - 1], k);
    }
  }

  lemma RecordSound(h: Hist, size: nat)
    requires Sound(h)
    ensures Sound(Recorded(h, size))
  {
    if size < MAX_SIZE {
      var k := Find(h.entries, size);
      if k < |h.entries| {
        TotalBump(h.entries, k, Mode(size, h.entries[k].count + 1));
      }
    }
  }

  /** The histogram of a sequence of recorded sizes. */
  function HistOf(sizes: seq<nat>): Hist {
    if sizes == [] then EMPTY else Recorded(HistOf(sizes[..|sizes| - 1]), sizes[|sizes| - 1])
  }

  function Occurrences(sizes: seq<nat>, x: nat): nat {
    if sizes == [] then 0 else Occurrences(sizes[..|sizes| - 1], x) + if sizes[|sizes| - 1] == x then 1 else 0
  }

  lemma {:induction false} HistOfSound(sizes: seq<nat>)
    ensures Sound(HistOf(sizes))
  {
    if sizes != [] {
      HistOfSound(sizes[..|sizes| - 1]);
      RecordSound(HistOf(sizes[..|sizes| - 1]), sizes[|sizes| - 1]);
    }
  }

  /** Recording bumps the counter of its size and no other, unless there is no room. */
  lemma RecordCounts(h: Hist, size: nat, x: nat)
    requires Sound(h) && x < MAX_SIZE
    requires Recorded(h, size).overflow ==> h.overflow
    ensures h.overflow || CountAt(Recorded(h, size).entries, x) == CountAt(h.entries, x) + if size == x then 1 else 0
  {
    if size < MAX_SIZE {
      var k := Find(h.entries, size);
      if k < |h.entries| {
        TotalBump(h.entries, k, Mode(size, h.entries[k].count + 1));
      } else if |h.entries| < CAP {
        var n := h.entries + [Mode(size, 1)];
        assert n[..|n| - 1] == h.entries;
      }
    }
  }

  /** A histogram that did not overflow is exactly the dense array of counters. */
  lemma {:induction false} HistIsDense(sizes: seq<nat>, x: nat)
    requires x < MAX_SIZE && !HistOf(sizes).overflow
    ensures CountAt(HistOf(sizes).entries, x) == Occurrences(sizes, x)
  {
    hide Recorded, Sound, CountAt, Find;
    if sizes == [] {
      CountAtFresh([], x);
    } else {
      var r, size := sizes[..|sizes| - 1], sizes[|sizes| - 1];
      HistOfSound(r);
      OverflowStays(HistOf(r), size);
      HistIsDense(r, x);
      RecordCounts(HistOf(r), size, x);
    }
  }

  lemma OverflowStays(h: Hist, size: nat)
    ensures h.overflow ==> Recorded(h, size).overflow
  {
  }

  /** The sizes that count: the distinct recorded sizes below 4096. */
  ghost function Tracked(sizes: seq<nat>): set<nat> { set x | x in sizes && x < MAX_SIZE }

  ghost function SizesOf(es: seq<Mode>): set<nat> {
    if es == [] then {} else SizesOf(es[..|es| - 1]) + {es[|es| - 1].size}
  }

  lemma {:induction false} SizesHas(es: seq<Mode>, x: nat)
    ensures x in SizesOf(es) <==> Find(es, x) < |es|
  {
    if es != [] {
      var r := es[..|es| - 1];
      SizesHas(r, x);
      var k, j := Find(es, x), Find(r, x);
      if k < |es| - 1 {
        assert r[k].size == x;
      }
      if j < |r| {
        assert es[j].size == x;
      }
    }
  }

  lemma {:induction false} SizesCount(es: seq<Mode>)
    requires DistinctSizes(es)
    ensures |SizesOf(es)| == |es|
  {
    if es != [] {
      var r := es[..|es| - 1];
      SizesCount(r);
      SizesHas(r, es[|es| - 1].size);
    }
  }

  /** It overflows exactly when more than 64 distinct sizes were recorded. */
  lemma {:induction false} OverflowExactly(sizes: seq<nat>)
    ensures HistOf(sizes).overflow <==> |Tracked(sizes)| > CAP
    ensures SizesOf(HistOf(sizes).entries) <= Tracked(sizes)
    ensures !HistOf(sizes).overflow ==> SizesOf(HistOf(sizes).entries) == Tracked(sizes)
  {
    hide Recorded, Sound, SizesOf, Tracked;
    HistOfSound(sizes);
    EntriesCount(HistOf(sizes));
    if sizes == [] {
      NothingTracked();
    } else {
      var r, size := sizes[..|sizes| - 1], sizes[|sizes| - 1];
      OverflowExactly(r);
      HistOfSound(r);
      EntriesCount(HistOf(r));
      TrackedMore(r, size);
      assert r + [size] == sizes;
      SizesAfter(HistOf(r), size);
      SubsetSize(Tracked(r), Tracked(sizes));
      var seen := SizesOf(HistOf(r).entries);
      if size in seen {
        assert seen + {size} == seen;
      } else if size !in Tracked(r) {
        assert |Tracked(r) + {size}| == |Tracked(r)| + 1;
      }
    }
  }

  lemma NothingTracked()
    ensures Tracked([]) == {} && SizesOf([]) == {}
  {
  }

  lemma EntriesCount(h: Hist)
    requires Sound(h)
    ensures |SizesOf(h.entries)| == |h.entries| <= CAP
  {
    SizesCount(h.entries);
  }

  lemma TrackedMore(sizes: seq<nat>, size: nat)
    ensures Tracked(sizes + [size]) == if size < MAX_SIZE then Tracked(sizes) + {size} else Tracked(sizes)
  {
  }

  lemma SizesAfter(h: Hist, size: nat)
    requires Sound(h)
    ensures var n := Recorded(h, size);
            n.overflow == (h.overflow || (size < MAX_SIZE && size !in SizesOf(h.entries) && |h.entries| == CAP)) &&
            SizesOf(n.entries) == if size < MAX_SIZE && |h.entries| < CAP then SizesOf(h.entries) + {size}
                                  else SizesOf(h.entries)
  {
    SizesHas(h.entries, size);
    var es, n := h.entries, Recorded(h, size).entries;
    if size < MAX_SIZE {
      var k := Find(es, size);
      if k < |es| {
        SameSizes(es, k, Mode(size, es[k].count + 1));
      } else if |es| < CAP {
        assert n[..|n| - 1] == es;
      }
    }
  }

  lemma {:induction false} SameSizes(es: seq<Mode>, k: nat, e: Mode)
    requires k < |es| && es[k].size == e.size
    ensures SizesOf(es[k := e]) == SizesOf(es)
  {
    var n := es[k := e];
    if k == |es| - 1 {
      assert n[..|n| - 1] == es[..|es| - 1];
    } else {
      assert n[..|n| - 1] == es[..|es| - 1][k := e];
      SameSizes(es[..|es| - 1], k, e);
    }
  }
}
