/** The histogram as it is stored, an array of entries changed in place, and its queries. */
module HistogramStore {
  import opened Lists
  import opened Histogram

  // ----- sorting by size -----

  /** s with e inserted before every larger size. */
  function Insert(s: seq<Mode>, e: Mode): (r: seq<Mode>)
    ensures |r| == |s| + 1
  {
    if s != [] && s[|s| - 1].size > e.size then Insert(s[..|s| - 1], e) + [s[|s| - 1]] else s + [e]
  }

  function Sorted(es: seq<Mode>): (r: seq<Mode>)
    ensures |r| == |es|
  {
    if es == [] then [] else Insert(Sorted(es[..|es| - 1]), es[|es| - 1])
  }

  ghost predicate Ascending(s: seq<Mode>) {
    forall i, j :: 0 <= i < j < |s| ==> s[i].size < s[j].size
  }

  lemma {:induction false} InsertAt(s: seq<Mode>, e: Mode, j: nat)
    requires j <= |s| && (forall k :: j <= k < |s| ==> s[k].size > e.size) && (j > 0 ==> s[j - 1].size <= e.size)
    ensures Insert(s, e) == s[..j] + [e] + s[j..]
  {
    if j == |s| {
      assert s[..j] == s && s[j..] == [];
    } else {
      var r, last := s[..|s| - 1], s[|s| - 1];
      assert last.size > e.size;
      InsertAt(r, e, j);
      assert s[..j] == r[..j] && s[j..] == r[j..] + [last];
      Joined(r[..j] + [e], r[j..], last);
    }
  }

  lemma Joined(a: seq<Mode>, b: seq<Mode>, x: Mode)
    ensures (a + b) + [x] == a + (b + [x])
  {
  }

  lemma {:induction false} InsertMembers(s: seq<Mode>, e: Mode)
    ensures forall x :: x in Insert(s, e) <==> x in s || x == e
  {
    if s != [] && s[|s| - 1].size > e.size {
      InsertMembers(s[..|s| - 1], e);
      assert s == s[..|s| - 1] + [s[|s| - 1]];
    }
  }

  lemma {:induction false} InsertAscends(s: seq<Mode>, e: Mode)
    requires Ascending(s) && forall x :: x in s ==> x.size != e.size
    ensures Ascending(Insert(s, e))
  {
    if s != [] && s[|s| - 1].size > e.size {
      var r, last := s[..|s| - 1], s[|s| - 1];
      InsertAscends(r, e);
      InsertMembers(r, e);
      var n := Insert(r, e);
      forall i | 0 <= i < |n|
        ensures n[i].size < last.size
      {
        assert n[i] in n;
        if n[i] in r {
          var k :| 0 <= k < |r| && r[k] == n[i];
          assert s[k].size < s[|s| - 1].size;
        }
      }
    } else if s != [] {
      assert s[|s| - 1] in s;
    }
  }

  lemma {:induction false} SortedMembers(es: seq<Mode>)
    ensures forall x :: x in Sorted(es) <==> x in es
  {
    hide Insert;
    if es != [] {
      var r, last := es[..|es| - 1], es[|es| - 1];
      SortedMembers(r);
      InsertMembers(Sorted(r), last);
      assert es == r + [last];
    }
  }

  /** Sorting keeps the entries and orders them by size. */
  lemma {:induction false} SortedIsSorted(es: seq<Mode>)
    requires DistinctSizes(es)
    ensures Ascending(Sorted(es)) && forall x :: x in Sorted(es) <==> x in es
  {
    hide Insert, Ascending;
    SortedMembers(es);
    if es == [] {
      assert Ascending([]) by { NoneAscends(); }
    } else {
      var r, last := es[..|es| - 1], es[|es| - 1];
      SortedIsSorted(r);
      forall x | x in Sorted(r)
        ensures x.size != last.size
      {
        var i :| 0 <= i < |r| && r[i] == x;
        assert es[i].size != es[|es| - 1].size;
      }
      InsertAscends(Sorted(r), last);
    }
  }

  lemma NoneAscends()
    ensures Ascending([])
  {
  }

  lemma {:induction false} InsertSums(s: seq<Mode>, e: Mode, x: int)
    ensures Cum(Insert(s, e), x) == Cum(s + [e], x) && Total(Insert(s, e)) == Total(s + [e])
  {
    assert (s + [e])[..|s|] == s;
    if s != [] && s[|s| - 1].size > e.size {
      var r, last := s[..|s| - 1], s[|s| - 1];
      InsertSums(r, e, x);
      assert (r + [e])[..|r|] == r;
      assert (Insert(r, e) + [last])[..|s|] == Insert(r, e);
    }
  }

  /** Sorting changes no sum: not the total, nor any cumulative count. */
  lemma {:induction false} SortedSums(es: seq<Mode>, x: int)
    ensures Cum(Sorted(es), x) == Cum(es, x) && Total(Sorted(es)) == Total(es)
  {
    if es != [] {
      var r, last := es[..|es| - 1], es[|es| - 1];
      SortedSums(r, x);
      InsertSums(Sorted(r), last, x);
      assert (Sorted(r) + [last])[..|r|] == Sorted(r);
    }
  }

  // ----- the order of modes -----

  /** Higher count first; of equal counts, the smaller size. */
  predicate Better(a: Mode, b: Mode) {
    a.count > b.count || (a.count == b.count && a.size < b.size)
  }

  /** out holds the best entries of es, best first. */
  ghost predicate IsTop(es: seq<Mode>, out: seq<Mode>) {
    (forall i :: 0 <= i < |out| ==> out[i] in es) &&
    (forall i, j :: 0 <= i < j < |out| ==> Better(out[i], out[j])) &&
    (forall e, i :: e in es && e !in out && 0 <= i < |out| ==> Better(out[i], e))
  }

  lemma TopPrefix(es: seq<Mode>, out: seq<Mode>, p: nat)
    requires IsTop(es, out) && p <= |out|
    ensures IsTop(es, out[..p])
  {
    forall e, i | e in es && e !in out[..p] && 0 <= i < p
      ensures Better(out[i], e)
    {
      if e in out {
        assert out == out[..p] + out[p..];
        var j :| 0 <= j < |out[p..]| && out[p..][j] == e;
        assert out[p + j] == e;
      }
    }
  }

  lemma {:induction false} ElementsAtMost<T>(q: seq<T>)
    ensures |Elements(q)| <= |q|
  {
    hide Elements;
    if q == [] {
      NoElements<T>();
    } else {
      ElementsAtMost(q[..|q| - 1]);
      assert q == q[..|q| - 1] + [q[|q| - 1]];
      ElementsMore(q[..|q| - 1], q[|q| - 1]);
    }
  }

  /** A longer list without repetition has an element the shorter one lacks. */
  lemma Pigeonhole<T>(t: seq<T>, q: seq<T>) returns (j: nat)
    requires Distinct(t) && |t| > |q|
    ensures j < |t| && t[j] !in q
  {
    DistinctCount(t);
    ElementsAtMost(q);
    SubsetSize(Elements(t), Elements(q));
    var x :| x in Elements(t) && x !in Elements(q);
    j :| 0 <= j < |t| && t[j] == x;
  }

  lemma TotalNext(s: seq<Mode>, i: nat)
    requires i < |s|
    ensures Total(s[..i + 1]) == Total(s[..i]) + s[i].count
  {
    assert s[..i + 1][..i] == s[..i];
  }

  lemma Without(t: seq<Mode>, j: nat)
    requires j < |t|
    ensures Total(t) == Total(t[..j] + t[j + 1..]) + t[j].count
  {
    hide Total;
    assert t == t[..j + 1] + t[j + 1..];
    TotalConcat(t[..j + 1], t[j + 1..]);
    TotalNext(t, j);
    TotalConcat(t[..j], t[j + 1..]);
  }

  lemma StillDistinct<T>(t: seq<T>, j: nat)
    requires j < |t| && Distinct(t)
    ensures Distinct(t[..j] + t[j + 1..])
  {
    var n := t[..j] + t[j + 1..];
    forall x, y | 0 <= x < y < |n|
      ensures n[x] != n[y]
    {
      assert n[x] == t[if x < j then x else x + 1];
      assert n[y] == t[if y < j then y else y + 1];
    }
  }

  /** No selection of as many tracked sizes has a larger total. */
  lemma {:induction false} TopIsOptimal(es: seq<Mode>, out: seq<Mode>, t: seq<Mode>)
    requires IsTop(es, out) && Distinct(t) && |t| == |out| && forall e :: e in t ==> e in es
    ensures Total(t) <= Total(out)
    decreases |out|
  {
    if out != [] {
      var o, w := out[..|out| - 1], out[|out| - 1];
      TopPrefix(es, out, |out| - 1);
      var j := Pigeonhole(t, o);
      Without(t, j);
      StillDistinct(t, j);
      var rest := t[..j] + t[j + 1..];
      TopIsOptimal(es, o, rest);
      assert out == o + [w];
      assert t[j] == w || Better(w, t[j]);
    }
  }

  /** The stopping rule: every proper prefix misses the coverage target. */
  ghost predicate Covers(es: seq<Mode>, out: seq<Mode>, k: nat, target: nat) {
    IsTop(es, out) && |out| <= k && |out| <= |es| &&
    Below(out, target) &&
    (|out| == k || |out| == |es| || (out != [] && Total(out) >= target))
  }

  /** So no smaller selection reaches the target. */
  lemma CoverIsSmallest(es: seq<Mode>, out: seq<Mode>, k: nat, target: nat, t: seq<Mode>)
    requires Covers(es, out, k, target) && Distinct(t) && 0 < |t| < |out| && forall e :: e in t ==> e in es
    ensures Total(t) < target
  {
    TopPrefix(es, out, |t|);
    TopIsOptimal(es, out[..|t|], t);
    assert Total(out[..|t|]) < target;
  }

  lemma ProductNonNegative(x: real, y: real)
    requires x >= 0.0 && y >= 0.0
    ensures x * y >= 0.0
  {
  }

  /** fraction of total, truncated as the cast to an unsigned integer does. */
  function Share(fraction: real, total: nat): (n: nat)
    requires fraction >= 0.0
    ensures n as real <= fraction * total as real < n as real + 1.0
  {
    ProductNonNegative(fraction, total as real);
    (fraction * total as real).Floor
  }

  class ExactHistogram {
    const slots: array<Mode>
    var n: nat
    var overflow: bool
    var total: nat

    ghost predicate Valid()
      reads this, slots
    {
      slots.Length == CAP && n <= CAP && Sound(View())
    }

    ghost function View(): Hist
      requires n <= slots.Length
      reads this, slots
    {
      Hist(slots[..n], overflow, total)
    }

    constructor ()
      ensures Valid() && fresh(slots) && View() == EMPTY
    {
      slots := new Mode[CAP](_ => Mode(0, 0));
      n, overflow, total := 0, false, 0;
    }

    method Record(size: nat)
      requires Valid()
      modifies this, slots
      ensures Valid() && View() == Recorded(old(View()), size)
    {
      hide Sound;
      RecordSound(View(), size);
      if size >= MAX_SIZE {
        return;
      }
      ghost var es := slots[..n];
      var i := 0;
      while i < n
        invariant 0 <= i <= n && View() == old(View()) && Valid() && forall k :: 0 <= k < i ==> es[k].size != size
      {
        if slots[i].size == size {
          assert Find(es, size) == i;
          slots[i] := Mode(size, slots[i].count + 1);
          total := total + 1;
          assert slots[..n] == es[i := Mode(size, es[i].count + 1)];
          return;
        }
        assert es[i] == slots[i];
        i := i + 1;
      }
      assert Find(es, size) == n;
      if n < CAP {
        slots[n] := Mode(size, 1);
        n := n + 1;
        assert slots[..n] == es + [Mode(size, 1)];
      } else {
        overflow := true;
      }
      total := total + 1;
    }

    method Reset()
      requires Valid()
      modifies this
      ensures Valid() && View() == EMPTY
    {
      n, overflow, total := 0, false, 0;
    }

    /** The entry with the highest count, the smallest such size; -1 if there is none. */
    method DominantIndex() returns (best: int)
      requires Valid()
      ensures best == -1 <==> View().entries == []
      ensures best != -1 ==> 0 <= best < n && IsTop(View().entries, [View().entries[best]])
    {
      best := -1;
      var i := 0;
      while i < n
        invariant 0 <= i <= n && -1 <= best < i && (best == -1 <==> i == 0)
        invariant best >= 0 ==> forall k :: 0 <= k < i ==> k == best || Better(slots[best], slots[k])
      {
        if best < 0 || Better(slots[i], slots[best]) {
          best := i;
        }
        i := i + 1;
      }
      ghost var es := View().entries;
      if best != -1 {
        assert es[best] == slots[best];
        forall e | e in es && e !in [es[best]]
          ensures Better(es[best], e)
        {
          var k :| 0 <= k < |es| && es[k] == e;
          assert es[k] == slots[k];
        }
      }
    }

    /** The insertion sort run before every walk over sizes. */
    method SortedModes(out: array<Mode>) returns (m: nat)
      requires Valid() && out.Length == CAP && out != slots
      modifies out
      ensures m == n && out[..m] == Sorted(View().entries)
    {
      hide Sound, Sorted, Insert;
      m := 0;
      SortedNone(slots[..0]);
      while m < n
        invariant 0 <= m <= n && out[..m] == Sorted(slots[..m])
      {
        InsertInto(out, m, slots[m]);
        SortedMore(slots[..m], slots[..m + 1]);
        m := m + 1;
      }
    }

    /** The smallest size below which more than target events lie, target being p of the events. */
    method Quantile(p: real) returns (size: nat)
      requires Valid() && 0.0 <= p <= 1.0
      ensures total == 0 ==> size == 0
      ensures total > 0 ==>
              var es, target := View().entries, Share(p, total - 1);
              if Total(es) > target
              then DenseCum(es, size) > target && forall x :: -1 <= x < size ==> DenseCum(es, x) <= target
              else forall e :: e in es ==> e.size <= size
    {
      hide Sorted, Insert, Share, Total, DenseCum, Cum, Sound;
      if total == 0 {
        return 0;
      }
      TotalNone(slots[..0]);
      ghost var es := slots[..n];
      var sorted := new Mode[CAP](_ => Mode(0, 0));
      var m := SortedModes(sorted);
      var target := Share(p, total - 1);
      ghost var s := sorted[..m];
      SortedIsSorted(es) by { SoundDistinct(View()); }
      SortedSums(es, 0);
      var cum, i := 0, 0;
      while i < m
        invariant 0 <= i <= m && s == sorted[..m] && cum == Total(s[..i]) && cum <= target
      {
        assert sorted[i] == s[i];
        TotalNext(s, i);
        cum := cum + sorted[i].count;
        if cum > target {
          size := sorted[i].size;
          QuantileAt(es, s, i, target);
          return;
        }
        i := i + 1;
      }
      assert s[..m] == s;
      if m == 0 {
        return 0;
      }
      assert sorted[m - 1] == s[m - 1];
      size := sorted[m - 1].size;
      LargestLast(es, s);
    }

    /** Picks the best entry left, again and again, until k are written or the coverage is reached. */
    method TopKModes(out: array<Mode>, k: nat, coverage: real) returns (written: nat)
      requires Valid() && out.Length >= k && out != slots && coverage >= 0.0
      modifies out
      ensures total == 0 || k == 0 ==> written == 0
      ensures total > 0 && k > 0 ==>
              written <= out.Length && Covers(View().entries, out[..written], k, Share(coverage, total))
    {
      hide Share, IsTop, Left, Total;
      written := 0;
      if total == 0 || k == 0 {
        return;
      }
      ghost var es := slots[..n];
      var local := new nat[CAP](i requires 0 <= i < CAP reads slots, this requires Valid() => if i < n then slots[i].count else 0);
      var cum, target := 0, Share(coverage, total);
      ghost var taken: seq<Mode> := [];
      NothingTaken(es, local[..n]);
      while written < k
        invariant written <= k && written == |taken| && out[..written] == taken && slots[..n] == es
        invariant Left(es, local[..n], taken) && IsTop(es, taken) && |taken| <= |es|
        invariant cum == Total(taken) && (taken != [] ==> cum < target)
        invariant Below(taken, target)
        decreases k - written
      {
        var best := PickBest(local);
        if best < 0 {
          AllTaken(es, local[..n], taken);
          break;
        }
        TakesBest(es, local[..n], taken, best);
        Prefixes(taken, es[best], target);
        out[written] := Mode(slots[best].size, local[best]);
        written := written + 1;
        taken := taken + [es[best]];
        assert out[..written] == taken;
        cum := cum + local[best];
        ghost var before := local[..n];
        local[best] := 0;
        assert local[..n] == before[best := 0];
        if cum >= target {
          break;
        }
      }
    }

    /** The inner loop: the best entry whose local count is not zero, or -1. */
    method PickBest(local: array<nat>) returns (best: int)
      requires Valid() && local.Length == CAP
      ensures best == -1 ==> forall i :: 0 <= i < n ==> local[i] == 0
      ensures best != -1 ==> 0 <= best < n && Leads(slots[..n], local[..n], best, n)
    {
      best := -1;
      var i := 0;
      while i < n
        invariant 0 <= i <= n && -1 <= best < i
        invariant best == -1 ==> forall j :: 0 <= j < i ==> local[j] == 0
        invariant best != -1 ==> Leads(slots[..n], local[..n], best, i)
      {
        if local[i] != 0 && (best < 0 || Better(Mode(slots[i].size, local[i]), Mode(slots[best].size, local[best]))) {
          best := i;
        }
        i := i + 1;
      }
    }
  }

  /** One step of the sort: shifts the larger modes up and puts e before them. */
  method InsertInto(out: array<Mode>, m: nat, e: Mode)
    requires m < out.Length
    modifies out
    ensures out[..m + 1] == Insert(old(out[..m]), e)
  {
    hide Insert;
    ghost var s := out[..m];
    var j := m;
    while j > 0 && out[j - 1].size > e.size
      invariant 0 <= j <= m && out[..j] == s[..j] && out[j + 1..m + 1] == s[j..]
      invariant forall k :: j <= k < m ==> s[k].size > e.size
    {
      assert out[..j][j - 1] == s[j - 1];
      out[j] := out[j - 1];
      j := j - 1;
    }
    assert j > 0 ==> out[..j][j - 1] == s[j - 1];
    InsertAt(s, e, j);
    out[j] := e;
    assert out[..m + 1] == out[..j] + [e] + out[j + 1..m + 1];
  }

  lemma LargestLast(es: seq<Mode>, s: seq<Mode>)
    requires Ascending(s) && s != [] && forall e :: e in s <==> e in es
    ensures forall e :: e in es ==> e.size <= s[|s| - 1].size
  {
    forall e | e in es
      ensures e.size <= s[|s| - 1].size
    {
      assert e in s;
      var k :| 0 <= k < |s| && s[k] == e;
      assert k == |s| - 1 || s[k].size < s[|s| - 1].size;
    }
  }

  lemma TotalNone(es: seq<Mode>)
    requires es == []
    ensures Total(es) == 0
  {
  }

  lemma SoundDistinct(h: Hist)
    requires Sound(h)
    ensures DistinctSizes(h.entries)
  {
  }

  /** At an ascending list's i-th size, the cumulative count is the sum of the first i + 1 counts. */
  lemma CumPrefix(s: seq<Mode>, i: nat, x: int)
    requires i <= |s| && (forall k :: 0 <= k < i ==> s[k].size <= x) && (forall k :: i <= k < |s| ==> s[k].size > x)
    ensures Cum(s, x) == Total(s[..i])
  {
    assert s == s[..i] + s[i..];
    CumConcat(s[..i], s[i..], x);
    CumAll(s[..i], x);
    CumNoneBelow(s[i..], x);
  }

  lemma QuantileAt(es: seq<Mode>, s: seq<Mode>, i: nat, target: nat)
    requires s == Sorted(es) && Ascending(s) && i < |s| && Total(s[..i]) <= target < Total(s[..i + 1])
    ensures DenseCum(es, s[i].size) > target && forall x :: -1 <= x < s[i].size ==> DenseCum(es, x) <= target
    ensures Total(es) > target
  {
    hide Sorted;
    SortedSums(es, s[i].size);
    CumPrefix(s, i + 1, s[i].size);
    CumIsDense(es, s[i].size);
    assert s == s[..i + 1] + s[i + 1..];
    TotalConcat(s[..i + 1], s[i + 1..]);
    forall x | -1 <= x < s[i].size
      ensures DenseCum(es, x) <= target
    {
      SortedSums(es, x);
      CumIsDense(es, x);
      CumMonotone(s, x, s[i].size - 1);
      CumPrefix(s, i, s[i].size - 1);
    }
  }

  lemma {:induction false} CumMonotone(s: seq<Mode>, x: int, y: int)
    requires x <= y
    ensures Cum(s, x) <= Cum(s, y)
  {
    if s != [] {
      CumMonotone(s[..|s| - 1], x, y);
    }
  }

  /** The local counts still to be picked from are those of the entries not taken. */
  ghost predicate Left(es: seq<Mode>, local: seq<nat>, taken: seq<Mode>) {
    |local| == |es| && forall i :: 0 <= i < |es| ==>
      (es[i] in taken ==> local[i] == 0) && (es[i] !in taken ==> local[i] == es[i].count)
  }

  /** Of the first m entries with a count left, best has the best one. */
  ghost predicate Leads(es: seq<Mode>, local: seq<nat>, best: nat, m: nat) {
    |local| == |es| && m <= |es| && best < |es| && local[best] != 0 &&
    forall i :: 0 <= i < m && local[i] != 0 && i != best ==>
      Better(Mode(es[best].size, local[best]), Mode(es[i].size, local[i]))
  }

  ghost predicate Positive(es: seq<Mode>) { forall i :: 0 <= i < |es| ==> es[i].count > 0 }

  /** Every proper prefix misses the target. */
  ghost predicate Below(taken: seq<Mode>, target: nat) {
    forall p :: 0 < p < |taken| ==> Total(taken[..p]) < target
  }

  lemma Prefixes(taken: seq<Mode>, e: Mode, target: nat)
    requires Below(taken, target) && (taken != [] ==> Total(taken) < target)
    ensures Below(taken + [e], target)
  {
    forall p | 0 < p < |taken| + 1
      ensures Total((taken + [e])[..p]) < target
    {
      assert (taken + [e])[..p] == taken[..p];
      assert p == |taken| ==> taken[..p] == taken;
    }
  }

  lemma NothingTaken(es: seq<Mode>, local: seq<nat>)
    requires |local| == |es| && forall i :: 0 <= i < |es| ==> local[i] == es[i].count
    ensures Left(es, local, []) && IsTop(es, []) && Total([]) == 0
  {
  }

  lemma BestIsNext(es: seq<Mode>, local: seq<nat>, taken: seq<Mode>, best: nat)
    requires Left(es, local, taken) && IsTop(es, taken) && Positive(es) && Leads(es, local, best, |es|)
    ensures es[best] !in taken && local[best] == es[best].count
    ensures IsTop(es, taken + [es[best]])
  {
    var w := es[best];
    var more := taken + [w];
    forall e, i | e in es && e !in more && 0 <= i < |more|
      ensures Better(more[i], e)
    {
      assert e !in taken;
      var k :| 0 <= k < |es| && es[k] == e;
      assert local[k] == e.count && k != best;
    }
  }

  lemma TakesBest(es: seq<Mode>, local: seq<nat>, taken: seq<Mode>, best: nat)
    requires DistinctSizes(es) && Positive(es) && Left(es, local, taken) && IsTop(es, taken)
    requires Leads(es, local, best, |es|)
    ensures local[best] == es[best].count && Total(taken + [es[best]]) == Total(taken) + es[best].count
    ensures Left(es, local[best := 0], taken + [es[best]]) && IsTop(es, taken + [es[best]])
    ensures |taken| + 1 <= |es|
  {
    BestIsNext(es, local, taken, best);
    assert (taken + [es[best]])[..|taken|] == taken;
    forall i | 0 <= i < |es| && i != best
      ensures es[i] != es[best]
    {
      assert es[i].size != es[best].size;
    }
    TopFits(es, taken + [es[best]]);
  }

  /** The best entries are no more than there are. */
  lemma TopFits(es: seq<Mode>, out: seq<Mode>)
    requires IsTop(es, out)
    ensures |out| <= |es|
  {
    DistinctCount(out);
    ElementsAtMost(es);
    SubsetSize(Elements(out), Elements(es));
  }

  lemma AllTaken(es: seq<Mode>, local: seq<nat>, taken: seq<Mode>)
    requires DistinctSizes(es) && Positive(es) && Left(es, local, taken) && IsTop(es, taken)
    requires forall i :: 0 <= i < |es| ==> local[i] == 0
    ensures |taken| == |es|
  {
    TopFits(es, taken);
    forall i | 0 <= i < |es|
      ensures es[i] in taken
    {
      assert local[i] == 0;
    }
    DistinctCount(es);
    ElementsAtMost(taken);
    SubsetSize(Elements(es), Elements(taken));
  }

  lemma SortedNone(es: seq<Mode>)
    requires es == []
    ensures Sorted(es) == []
  {
  }

  lemma SortedMore(es: seq<Mode>, more: seq<Mode>)
    requires |more| == |es| + 1 && more[..|es|] == es
    ensures Sorted(more) == Insert(Sorted(es), more[|es|])
  {
  }
}
