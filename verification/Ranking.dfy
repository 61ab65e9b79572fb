/** The modes of a histogram in order of rank, as a function of its entries: what every selection of
    best modes is a prefix of. */
module Ranking {
  import opened Lists
  import opened Histogram
  import opened HistogramStore

  /** r with e inserted before every worse mode. */
  function Placed(r: seq<Mode>, e: Mode): (p: seq<Mode>)
    ensures |p| == |r| + 1
  {
    if r != [] && Better(e, r[|r| - 1]) then Placed(r[..|r| - 1], e) + [r[|r| - 1]] else r + [e]
  }

  function Ranked(es: seq<Mode>): (r: seq<Mode>)
    ensures |r| == |es|
  {
    if es == [] then [] else Placed(Ranked(es[..|es| - 1]), es[|es| - 1])
  }

  /** The mode of rank 0; dominant_size is 0 for an empty histogram. */
  function Dominant(es: seq<Mode>): Mode { if es == [] then Mode(0, 0) else Ranked(es)[0] }

  /** The shortest prefix of r, from p on, that has k modes or reaches the target. */
  function Cut(r: seq<Mode>, k: nat, target: nat, p: nat): (c: seq<Mode>)
    requires p <= |r| && p <= k
    ensures p <= |c| <= k && |c| <= |r| && c == r[..|c|]
    decreases |r| - p
  {
    if p == k || p == |r| || (p > 0 && Total(r[..p]) >= target) then r[..p] else Cut(r, k, target, p + 1)
  }

  /** The learned size classes. */
  function Classes(es: seq<Mode>, k: nat, target: nat): (c: seq<Mode>)
    ensures |c| <= k && |c| <= |es| && c == Ranked(es)[..|c|]
  {
    Cut(Ranked(es), k, target, 0)
  }

  ghost predicate Descending(r: seq<Mode>) { forall i, j :: 0 <= i < j < |r| ==> Better(r[i], r[j]) }

  lemma {:induction false} PlacedMembers(r: seq<Mode>, e: Mode)
    ensures forall x :: x in Placed(r, e) <==> x in r || x == e
  {
    if r != [] && Better(e, r[|r| - 1]) {
      PlacedMembers(r[..|r| - 1], e);
      assert r == r[..|r| - 1] + [r[|r| - 1]];
    }
  }

  lemma {:induction false} PlacedDescends(r: seq<Mode>, e: Mode)
    requires Descending(r) && forall x :: x in r ==> x.size != e.size
    ensures Descending(Placed(r, e))
  {
    if r != [] && Better(e, r[|r| - 1]) {
      var q, last := r[..|r| - 1], r[|r| - 1];
      PlacedDescends(q, e);
      PlacedMembers(q, e);
      var n := Placed(q, e);
      forall i | 0 <= i < |n|
        ensures Better(n[i], last)
      {
        assert n[i] in n;
        if n[i] in q {
          var k :| 0 <= k < |q| && q[k] == n[i];
          assert Better(r[k], r[|r| - 1]);
        }
      }
    } else if r != [] {
      assert r[|r| - 1] in r;
      assert Better(r[|r| - 1], e);
      forall i | 0 <= i < |r|
        ensures Better(r[i], e)
      {
        assert i < |r| - 1 ==> Better(r[i], r[|r| - 1]);
      }
    }
  }

  /** The ranking holds exactly the entries, best first. */
  lemma {:induction false} RankedIsRanked(es: seq<Mode>)
    requires DistinctSizes(es)
    ensures Descending(Ranked(es)) && forall x :: x in Ranked(es) <==> x in es
  {
    hide Placed, Descending;
    if es == [] {
      assert Descending([]) by { NoneDescends(); }
    } else {
      var r, last := es[..|es| - 1], es[|es| - 1];
      RankedIsRanked(r);
      forall x | x in Ranked(r)
        ensures x.size != last.size
      {
        var i :| 0 <= i < |r| && r[i] == x;
        assert es[i].size != es[|es| - 1].size;
      }
      PlacedMembers(Ranked(r), last);
      PlacedDescends(Ranked(r), last);
      assert es == r + [last];
    }
  }

  lemma NoneDescends()
    ensures Descending([])
  {
  }

  lemma NotBefore(r: seq<Mode>, i: nat)
    requires Descending(r) && i < |r|
    ensures r[i] !in r[..i]
  {
  }

  lemma NextInRank(r: seq<Mode>, i: nat, x: Mode)
    requires Descending(r) && i < |r| && x in r && x !in r[..i]
    ensures x == r[i] || Better(r[i], x)
  {
    var j :| 0 <= j < |r| && r[j] == x;
    assert forall k :: 0 <= k < i ==> r[..i][k] == r[k];
  }

  lemma NextInTop(es: seq<Mode>, out: seq<Mode>, i: nat, y: Mode)
    requires IsTop(es, out) && i < |out| && y in es && y !in out[..i]
    ensures y == out[i] || Better(out[i], y)
    ensures Descending(out)
  {
    if y in out {
      NextInRank(out, i, y);
    }
  }

  lemma SameRank(es: seq<Mode>, r: seq<Mode>, out: seq<Mode>, i: nat)
    requires IsTop(es, out) && Descending(out) && Descending(r) && (forall x :: x in r <==> x in es)
    requires i < |out| && i < |r| && out[..i] == r[..i] && out[i] in es
    ensures out[i] == r[i]
  {
    hide IsTop, Descending;
    NotBefore(out, i);
    NotBefore(r, i);
    assert r[i] in r;
    NextInRank(r, i, out[i]);
    NextInTop(es, out, i, r[i]);
  }

  lemma TopFacts(es: seq<Mode>, out: seq<Mode>)
    requires IsTop(es, out)
    ensures Descending(out) && |out| <= |es| && forall i :: 0 <= i < |out| ==> out[i] in es
  {
    TopFits(es, out);
  }

  /** Every selection of best modes, however it was found, is a prefix of the ranking. */
  lemma TopIsPrefix(es: seq<Mode>, out: seq<Mode>)
    requires DistinctSizes(es) && IsTop(es, out)
    ensures |out| <= |es| && out == Ranked(es)[..|out|]
  {
    hide IsTop, Ranked, Descending, DistinctSizes, Better;
    var r := Ranked(es);
    RankedIsRanked(es);
    TopFacts(es, out);
    var i := 0;
    while i < |out|
      invariant 0 <= i <= |out| && out[..i] == r[..i]
    {
      SameRank(es, r, out, i);
      assert out[..i + 1] == out[..i] + [out[i]] && r[..i + 1] == r[..i] + [r[i]];
      i := i + 1;
    }
    assert out[..i] == out;
  }

  lemma {:induction false} CutIs(r: seq<Mode>, out: seq<Mode>, k: nat, target: nat, p: nat)
    requires p <= |out| <= |r| && |out| <= k && out == r[..|out|] && Below(out, target)
    requires |out| == k || |out| == |r| || (out != [] && Total(out) >= target)
    ensures Cut(r, k, target, p) == out
    decreases |out| - p
  {
    if p < |out| {
      assert out[..p] == r[..p];
      CutIs(r, out, k, target, p + 1);
    } else {
      assert r[..p] == out;
    }
  }

  /** What top_k_modes writes is determined by the entries alone: the learned classes. */
  lemma CoverIsClasses(es: seq<Mode>, out: seq<Mode>, k: nat, target: nat)
    requires DistinctSizes(es) && Covers(es, out, k, target)
    ensures out == Classes(es, k, target)
  {
    hide IsTop, Ranked, Cut, Total;
    TopIsPrefix(es, out);
    CutIs(Ranked(es), out, k, target, 0);
  }

  /** So is the entry dominant_index finds. */
  lemma TopIsDominant(es: seq<Mode>, best: Mode)
    requires DistinctSizes(es) && IsTop(es, [best])
    ensures es != [] && best == Dominant(es)
  {
    hide IsTop, Ranked;
    TopIsPrefix(es, [best]);
  }

  /** Classes and the dominant mode are entries. */
  lemma ClassesAreEntries(es: seq<Mode>, k: nat, target: nat)
    requires DistinctSizes(es)
    ensures forall m :: m in Classes(es, k, target) ==> m in es
    ensures es != [] ==> Dominant(es) in es
  {
    hide Ranked, Classes, Descending;
    RankedIsRanked(es);
    assert es != [] ==> Ranked(es)[0] in Ranked(es);
  }
}
