/** The two-sample Kolmogorov-Smirnov test: a merge-walk over two sorted size lists, proved to find
    the largest gap between the two distribution functions over all 4096 sizes. */
module KsTest {
  import opened Histogram
  import opened HistogramStore

  function Abs(x: real): real { if x < 0.0 then -x else x }

  function Max(x: real, y: real): real { if x > y then x else y }

  /** The share of a histogram's events of size x or less, over its dense counters. */
  function Cdf(h: Hist, x: int): real
    requires h.total > 0
  {
    DenseCum(h.entries, x) as real / h.total as real
  }

  function Gap(a: Hist, b: Hist, x: int): real
    requires a.total > 0 && b.total > 0
  {
    Abs(Cdf(a, x) - Cdf(b, x))
  }

  /** The largest gap at a size below m. */
  function MaxGap(a: Hist, b: Hist, m: nat): (d: real)
    requires a.total > 0 && b.total > 0
    ensures d >= 0.0 && forall x :: 0 <= x < m ==> Gap(a, b, x) <= d
    ensures d == 0.0 || exists x :: 0 <= x < m && d == Gap(a, b, x)
  {
    if m == 0 then 0.0
    else
      var d := MaxGap(a, b, m - 1);
      assert Gap(a, b, m - 1) >= 0.0;
      Max(d, Gap(a, b, m - 1))
  }

  /** c(alpha), of the asymptotic critical value. */
  function Critical(alpha: real): (c: real)
    ensures c > 0.0
  {
    if alpha <= 0.01 then 1.6276 else if alpha <= 0.05 then 1.3581 else 1.2239
  }

  /** d is below c(alpha) * sqrt((na + nb) / (na * nb)), both sides squared. */
  predicate Below(d: real, na: nat, nb: nat, alpha: real) {
    d * d * (na as real * nb as real) < Critical(alpha) * Critical(alpha) * (na as real + nb as real)
  }

  /** The two windows are indistinguishable at level alpha. */
  predicate Stable(a: Hist, b: Hist, alpha: real) {
    a.total > 0 && b.total > 0 && !a.overflow && !b.overflow &&
    Below(MaxGap(a, b, MAX_SIZE), a.total, b.total, alpha)
  }

  // ----- the merge-walk -----

  lemma ShareAdds(m: nat, k: nat, n: nat)
    requires n > 0
    ensures (m + k) as real / n as real == m as real / n as real + k as real / n as real
  {
  }

  /** Where no size of either histogram lies in (lo, hi], the gap is the one at lo. */
  lemma {:induction false} GapFlat(a: Hist, b: Hist, lo: int, hi: int)
    requires a.total > 0 && b.total > 0 && -1 <= lo <= hi
    requires forall e :: e in a.entries || e in b.entries ==> !(lo < e.size <= hi)
    ensures Gap(a, b, hi) == Gap(a, b, lo)
    decreases hi - lo
  {
    if lo < hi {
      GapFlat(a, b, lo, hi - 1);
      CountAtNone(a.entries, hi);
      CountAtNone(b.entries, hi);
    }
  }

  lemma CountAtNone(es: seq<Mode>, x: nat)
    requires forall e :: e in es ==> e.size != x
    ensures CountAt(es, x) == 0
  {
    CountAtFresh(es, x);
  }

  lemma {:induction false} MaxGapFlat(a: Hist, b: Hist, lo: int, hi: int)
    requires a.total > 0 && b.total > 0 && -1 <= lo <= hi
    requires forall e :: e in a.entries || e in b.entries ==> !(lo < e.size <= hi)
    ensures MaxGap(a, b, hi + 1) == MaxGap(a, b, lo + 1)
    decreases hi - lo
  {
    if lo < hi {
      MaxGapFlat(a, b, lo, hi - 1);
      GapFlat(a, b, lo, hi);
      if lo == -1 {
        assert Gap(a, b, -1) == 0.0;
      }
    }
  }

  /** i is the position of the first entry of s whose size exceeds last. */
  ghost predicate Split(s: seq<Mode>, i: nat, last: int) {
    i <= |s| && (forall k :: 0 <= k < i ==> s[k].size <= last) && (forall k :: i <= k < |s| ==> s[k].size > last)
  }

  /** The running sum of a walk is the distribution function at the last size passed. */
  lemma WalkIsCdf(h: Hist, i: nat, last: int)
    requires h.total > 0 && last >= -1 && Split(Sorted(h.entries), i, last)
    ensures Total(Sorted(h.entries)[..i]) as real / h.total as real == Cdf(h, last)
  {
    hide Sorted;
    CumPrefix(Sorted(h.entries), i, last);
    SortedSums(h.entries, last);
    CumIsDense(h.entries, last);
  }

  /** The histogram's entries as the walk sees them. */
  ghost predicate Walks(h: Hist, s: seq<Mode>) {
    h.total > 0 && s == Sorted(h.entries) && Ascending(s) && (forall e :: e in s <==> e in h.entries) &&
    forall e :: e in s ==> e.size < MAX_SIZE
  }

  lemma WalksSorted(h: Hist)
    requires Sound(h) && h.total > 0
    ensures Walks(h, Sorted(h.entries))
  {
    hide Sorted, Ascending;
    SortedIsSorted(h.entries);
    forall e | e in h.entries
      ensures e.size < MAX_SIZE
    {
      var i :| 0 <= i < |h.entries| && h.entries[i] == e;
    }
  }

  lemma WalksFacts(h: Hist, s: seq<Mode>)
    requires Walks(h, s)
    ensures h.total > 0 && Ascending(s) && s == Sorted(h.entries)
  {
  }

  /** No size of the list lies between the last one passed and the next. */
  lemma NothingBetween(h: Hist, s: seq<Mode>, i: nat, last: int, next: int)
    requires Walks(h, s) && Split(s, i, last) && (i < |s| ==> s[i].size >= next)
    ensures forall e :: e in h.entries ==> !(last < e.size < next)
  {
    hide Sorted;
    forall e | e in h.entries
      ensures !(last < e.size < next)
    {
      assert e in s;
      var k :| 0 <= k < |s| && s[k] == e;
      assert k > i ==> s[i].size < s[k].size;
    }
  }

  /** Passing every entry of the given size keeps the running sum. */
  method Advance(ghost h: Hist, n: nat, s: array<Mode>, m: nat, i: nat, size: nat, cum: real, ghost last: int)
    returns (k: nat, sum: real)
    requires m <= s.Length && i <= m && Walks(h, s[..m]) && Split(s[..m], i, last) && -1 <= last < size
    requires n == h.total && (i < m ==> s[i].size >= size)
    requires cum == Total(s[..i]) as real / h.total as real
    ensures i <= k <= m && Split(s[..m], k, size)
    ensures sum == Total(s[..k]) as real / h.total as real == Cdf(h, size)
  {
    hide Sorted, Total, Walks, Cdf;
    assert h.total > 0 && Ascending(s[..m]) && s[..m] == Sorted(h.entries) by { WalksFacts(h, s[..m]); }
    k, sum := i, cum;
    while k < m && s[k].size == size
      invariant i <= k <= m && sum == Total(s[..k]) as real / h.total as real
      invariant forall x :: i <= x < k ==> s[x].size <= size
      invariant k < m ==> s[k].size >= size
    {
      TotalNext(s[..m], k);
      assert s[..m][..k + 1] == s[..k + 1] && s[..m][..k] == s[..k];
      ShareAdds(Total(s[..k]), s[k].count, h.total);
      sum := sum + s[k].count as real / n as real;
      k := k + 1;
    }
    WalkIsCdf(h, k, size);
    assert s[..m][..k] == s[..k];
  }

  /** The merge-walk over both sorted lists. */
  method KsDistance(ghost a: Hist, ghost b: Hist, na: nat, nb: nat, sa: array<Mode>, la: nat, sb: array<Mode>, lb: nat)
    returns (d: real)
    requires la <= sa.Length && lb <= sb.Length && Walks(a, sa[..la]) && Walks(b, sb[..lb])
    requires na == a.total && nb == b.total
    ensures d == MaxGap(a, b, MAX_SIZE)
  {
    hide Sorted, Total, Walks, Cdf, MaxGap, Gap, Cum, DenseCum;
    WalksFacts(a, sa[..la]);
    WalksFacts(b, sb[..lb]);
    d := 0.0;
    var cumA, cumB := 0.0, 0.0;
    var i, j := 0, 0;
    ghost var last := -1;
    WalkStart(a, b, sa[..0], sb[..0]);
    while i < la || j < lb
      invariant 0 <= i <= la && 0 <= j <= lb && -1 <= last < MAX_SIZE
      invariant Split(sa[..la], i, last) && Split(sb[..lb], j, last)
      invariant cumA == Total(sa[..i]) as real / na as real && cumB == Total(sb[..j]) as real / nb as real
      invariant d == MaxGap(a, b, last + 1)
      decreases la - i + lb - j
    {
      var size := if i == la then sb[j].size
                  else if j == lb then sa[i].size
                  else if sa[i].size < sb[j].size then sa[i].size else sb[j].size;
      SizeInRange(a, sa[..la], i);
      SizeInRange(b, sb[..lb], j);
      NothingBetween(a, sa[..la], i, last, size);
      NothingBetween(b, sb[..lb], j, last, size);
      MaxGapFlat(a, b, last, size - 1);
      i, cumA := Advance(a, na, sa, la, i, size, cumA, last);
      j, cumB := Advance(b, nb, sb, lb, j, size, cumB, last);
      var gap := if cumA > cumB then cumA - cumB else cumB - cumA;
      MaxGapNext(a, b, size, gap);
      if gap > d {
        d := gap;
      }
      last := size;
    }
    NothingBetween(a, sa[..la], i, last, MAX_SIZE);
    NothingBetween(b, sb[..lb], j, last, MAX_SIZE);
    MaxGapFlat(a, b, last, MAX_SIZE - 1);
  }

  lemma WalkStart(a: Hist, b: Hist, sa: seq<Mode>, sb: seq<Mode>)
    requires a.total > 0 && b.total > 0 && sa == [] && sb == []
    ensures Total(sa) == 0 && Total(sb) == 0 && MaxGap(a, b, 0) == 0.0
  {
  }

  lemma SizeInRange(h: Hist, s: seq<Mode>, i: nat)
    requires Walks(h, s)
    ensures i < |s| ==> s[i].size < MAX_SIZE
  {
  }

  lemma MaxGapNext(a: Hist, b: Hist, size: nat, gap: real)
    requires a.total > 0 && b.total > 0
    requires gap == if Cdf(a, size) > Cdf(b, size) then Cdf(a, size) - Cdf(b, size) else Cdf(b, size) - Cdf(a, size)
    ensures MaxGap(a, b, size + 1) == if gap > MaxGap(a, b, size) then gap else MaxGap(a, b, size)
  {
    hide Cdf;
  }

  /** ks_stable. */
  method KsStable(a: ExactHistogram, b: ExactHistogram, alpha: real) returns (stable: bool)
    requires a.Valid() && b.Valid()
    ensures stable == Stable(a.View(), b.View(), alpha)
  {
    hide MaxGap, Sorted, Walks;
    if a.total == 0 || b.total == 0 || a.overflow || b.overflow {
      return false;
    }
    var sa := new Mode[CAP](_ => Mode(0, 0));
    var sb := new Mode[CAP](_ => Mode(0, 0));
    var la := a.SortedModes(sa);
    var lb := b.SortedModes(sb);
    WalksSorted(a.View());
    WalksSorted(b.View());
    var d := KsDistance(a.View(), b.View(), a.total, b.total, sa, la, sb, lb);
    stable := Below(d, a.total, b.total, alpha);
  }

  // ----- what the test promises -----

  lemma {:induction false} GapSymmetric(a: Hist, b: Hist, m: nat)
    requires a.total > 0 && b.total > 0
    ensures MaxGap(a, b, m) == MaxGap(b, a, m)
  {
    hide Cdf;
    if m > 0 {
      GapSymmetric(a, b, m - 1);
    }
  }

  /** The test does not depend on which window comes first. */
  lemma StableSymmetric(a: Hist, b: Hist, alpha: real)
    ensures Stable(a, b, alpha) == Stable(b, a, alpha)
  {
    hide MaxGap;
    if a.total > 0 && b.total > 0 {
      GapSymmetric(a, b, MAX_SIZE);
      assert a.total as real * b.total as real == b.total as real * a.total as real;
    }
  }

  /** A window with events, not overflowed, is indistinguishable from itself. */
  lemma StableReflexive(a: Hist, alpha: real)
    requires a.total > 0 && !a.overflow
    ensures Stable(a, a, alpha)
  {
    NoGap(a, MAX_SIZE);
    var c := Critical(alpha);
    assert c * c > 0.0;
    Positive2(c * c, a.total as real + a.total as real);
  }

  lemma Positive2(x: real, y: real)
    requires x > 0.0 && y > 0.0
    ensures x * y > 0.0
  {
  }

  lemma {:induction false} NoGap(a: Hist, m: nat)
    requires a.total > 0
    ensures MaxGap(a, a, m) == 0.0
  {
    hide Cdf;
    if m > 0 {
      NoGap(a, m - 1);
    }
  }

  /** Only the dense counters matter. */
  lemma {:induction false} GapByCounts(a: Hist, b: Hist, c: Hist, m: nat)
    requires a.total > 0 && b.total == a.total && c.total > 0 && m <= MAX_SIZE
    requires forall x :: 0 <= x < MAX_SIZE ==> CountAt(a.entries, x) == CountAt(b.entries, x)
    ensures MaxGap(a, c, m) == MaxGap(b, c, m)
  {
    if m > 0 {
      GapByCounts(a, b, c, m - 1);
      CumByCounts(a.entries, b.entries, m - 1);
    }
  }

  lemma {:induction false} CumByCounts(es: seq<Mode>, fs: seq<Mode>, x: int)
    requires x < MAX_SIZE && forall y :: 0 <= y < MAX_SIZE ==> CountAt(es, y) == CountAt(fs, y)
    ensures DenseCum(es, x) == DenseCum(fs, x)
    decreases x + 1
  {
    if x >= 0 {
      CumByCounts(es, fs, x - 1);
    }
  }

  lemma {:induction false} OccurrencesOf(sizes: seq<nat>, x: nat)
    ensures Occurrences(sizes, x) == multiset(sizes)[x]
  {
    if sizes != [] {
      OccurrencesOf(sizes[..|sizes| - 1], x);
      assert sizes == sizes[..|sizes| - 1] + [sizes[|sizes| - 1]];
    }
  }

  /** Two recordings of the same sizes give the same counters. */
  lemma SameCounters(p: seq<nat>, q: seq<nat>)
    requires multiset(p) == multiset(q)
    ensures HistOf(p).overflow == HistOf(q).overflow
    ensures !HistOf(p).overflow ==>
            HistOf(p).total == HistOf(q).total &&
            forall x :: 0 <= x < MAX_SIZE ==> CountAt(HistOf(p).entries, x) == CountAt(HistOf(q).entries, x)
  {
    hide HistOf, Tracked, CountAt;
    assert Tracked(p) == Tracked(q) by { SameTracked(p, q); }
    OverflowExactly(p);
    OverflowExactly(q);
    if !HistOf(p).overflow {
      forall x | 0 <= x < MAX_SIZE
        ensures CountAt(HistOf(p).entries, x) == CountAt(HistOf(q).entries, x)
      {
        HistIsDense(p, x);
        HistIsDense(q, x);
        OccurrencesOf(p, x);
        OccurrencesOf(q, x);
      }
      CumByCounts(HistOf(p).entries, HistOf(q).entries, MAX_SIZE - 1);
      TotalIsDense(p);
      TotalIsDense(q);
    }
  }

  lemma SameTracked(p: seq<nat>, q: seq<nat>)
    requires multiset(p) == multiset(q)
    ensures Tracked(p) == Tracked(q)
  {
    forall x
      ensures x in p <==> x in q
    {
      assert x in p <==> x in multiset(p);
      assert x in q <==> x in multiset(q);
    }
  }

  lemma TotalIsDense(sizes: seq<nat>)
    requires !HistOf(sizes).overflow
    ensures HistOf(sizes).total == DenseCum(HistOf(sizes).entries, MAX_SIZE - 1)
  {
    hide HistOf, DenseCum, Total;
    HistOfSound(sizes);
    var es := HistOf(sizes).entries;
    CumIsDense(es, MAX_SIZE - 1);
    CumAll(es, MAX_SIZE - 1);
  }

  /** The verdict does not depend on the order in which the sizes were recorded. */
  lemma StableAnyOrder(p: seq<nat>, q: seq<nat>, c: Hist, alpha: real)
    requires multiset(p) == multiset(q)
    ensures Stable(HistOf(p), c, alpha) == Stable(HistOf(q), c, alpha)
  {
    hide HistOf, MaxGap, CountAt;
    SameCounters(p, q);
    if !HistOf(p).overflow && HistOf(p).total > 0 && c.total > 0 {
      GapByCounts(HistOf(p), HistOf(q), c, MAX_SIZE);
    }
  }

  lemma SquaresCompare(x: real, y: real, m: real)
    requires x >= 0.0 && y >= 0.0 && m > 0.0
    ensures x < y <==> x * x * m < y * y * m
  {
    if x < y {
      SquaresRise(x, y);
      Scaled(x * x, y * y, m);
    } else if y < x {
      SquaresRise(y, x);
      Scaled(y * y, x * x, m);
    }
  }

  lemma SquaresRise(x: real, y: real)
    requires 0.0 <= x < y
    ensures x * x < y * y
  {
    Positive2(y - x, y + x);
    assert (y - x) * (y + x) == y * y - x * x;
  }

  lemma Scaled(x: real, y: real, m: real)
    requires x < y && m > 0.0
    ensures x * m < y * m
  {
    Positive2(y - x, m);
    assert (y - x) * m == y * m - x * m;
  }

  /** Two windows are indistinguishable exactly when both have events, neither overflowed, and at every size
      the two distribution functions are closer than c(alpha) times r, r being the root of
      (na + nb) / (na * nb); c is 1.6276 at one percent, 1.3581 at five and 1.2239 above. */
  lemma StableExactly(a: Hist, b: Hist, alpha: real, r: real)
    requires a.total > 0 && b.total > 0 && r >= 0.0
    requires r * r * (a.total as real * b.total as real) == a.total as real + b.total as real
    ensures Stable(a, b, alpha) <==>
            !a.overflow && !b.overflow &&
            forall x :: 0 <= x < 4096 ==>
              Gap(a, b, x) < (if alpha <= 0.01 then 1.6276 else if alpha <= 0.05 then 1.3581 else 1.2239) * r
  {
    hide MaxGap, Gap;
    var c := if alpha <= 0.01 then 1.6276 else if alpha <= 0.05 then 1.3581 else 1.2239;
    var d, m := MaxGap(a, b, 4096), a.total as real * b.total as real;
    Positive2(a.total as real, b.total as real);
    assert r > 0.0;
    Positive2(c, r);
    SquaresCompare(d, c * r, m);
    Rearranged(c, r, m);
  }

  lemma Rearranged(c: real, r: real, m: real)
    ensures (c * r) * (c * r) * m == c * c * (r * r * m)
  {
  }
}
