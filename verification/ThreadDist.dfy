/** The one-counter thread distribution: a Boyer-Moore majority vote with a replacement rule of its
    own, against the true number of occurrences of every thread. */
module ThreadDist {

  datatype Dist = Dist(topTid: nat, topCount: nat, total: nat)

  const NONE: Dist := Dist(0, 0, 0)

  function Seen(d: Dist, tid: nat): Dist {
    if d.topCount == 0 || tid == d.topTid then Dist(tid, d.topCount + 1, d.total + 1)
    else if d.topCount == 1 then Dist(tid, 1, d.total + 1)
    else Dist(d.topTid, d.topCount - 1, d.total + 1)
  }

  function DistOf(tids: seq<nat>): Dist {
    if tids == [] then NONE else Seen(DistOf(tids[..|tids| - 1]), tids[|tids| - 1])
  }

  function Times(tids: seq<nat>, t: nat): nat {
    if tids == [] then 0 else Times(tids[..|tids| - 1], t) + if tids[|tids| - 1] == t then 1 else 0
  }

  /** What the counter knows after any sequence of events. */
  lemma {:induction false} VoteInvariant(tids: seq<nat>, t: nat)
    ensures var d := DistOf(tids);
            d.total == |tids| && (tids != [] ==> d.topCount > 0) &&
            d.topCount <= Times(tids, d.topTid) &&
            (t == d.topTid ==> 2 * Times(tids, t) - |tids| <= d.topCount) &&
            (t != d.topTid ==> 2 * Times(tids, t) - |tids| <= 1 - d.topCount)
  {
    if tids != [] {
      var r, last := tids[..|tids| - 1], tids[|tids| - 1];
      VoteInvariant(r, t);
      VoteInvariant(r, last);
      VoteInvariant(r, DistOf(r).topTid);
    }
  }

  /** Soundness: the counter never exceeds the true occurrences of the thread it names. */
  lemma {:induction false} TopIsSound(tids: seq<nat>)
    ensures DistOf(tids).topCount <= Times(tids, DistOf(tids).topTid) && DistOf(tids).total == |tids|
  {
    VoteInvariant(tids, 0);
  }

  /** Completeness: a strict majority is named, with at least its lead as the counter. */
  lemma MajorityIsTop(tids: seq<nat>, t: nat)
    requires 2 * Times(tids, t) > |tids|
    ensures DistOf(tids).topTid == t && DistOf(tids).topCount >= 2 * Times(tids, t) - |tids|
  {
    VoteInvariant(tids, t);
    assert tids == [] ==> Times(tids, t) == 0;
  }

  /** top_count / total >= 0.95, without rounding. */
  predicate Concentrated(d: Dist) { d.total > 0 && 100 * d.topCount >= 95 * d.total }

  predicate PcPattern(allocs: Dist, frees: Dist) {
    Concentrated(allocs) && Concentrated(frees) && allocs.topTid != frees.topTid
  }

  /** A detected producer-consumer pattern is real: one thread made at least 95 percent of the
      allocations, and a different one at least 95 percent of the frees. */
  lemma PatternIsReal(allocs: seq<nat>, frees: seq<nat>)
    requires PcPattern(DistOf(allocs), DistOf(frees))
    ensures exists p, c :: p != c && 100 * Times(allocs, p) >= 95 * |allocs| && 100 * Times(frees, c) >= 95 * |frees|
  {
    TopIsSound(allocs);
    TopIsSound(frees);
    var p, c := DistOf(allocs).topTid, DistOf(frees).topTid;
    assert p != c && 100 * Times(allocs, p) >= 95 * |allocs| && 100 * Times(frees, c) >= 95 * |frees|;
  }

  /** And a pattern with two different threads at 97.5 percent is always detected. */
  lemma PatternIsFound(allocs: seq<nat>, frees: seq<nat>, p: nat, c: nat)
    requires p != c && allocs != [] && frees != []
    requires 1000 * Times(allocs, p) >= 975 * |allocs| && 1000 * Times(frees, c) >= 975 * |frees|
    ensures PcPattern(DistOf(allocs), DistOf(frees))
  {
    MajorityIsTop(allocs, p);
    MajorityIsTop(frees, c);
    TopIsSound(allocs);
    TopIsSound(frees);
  }

  /** The counter as stored: three words updated by every event. */
  class Counter {
    var topTid: nat
    var topCount: nat
    var total: nat

    function View(): Dist
      reads this
    {
      Dist(topTid, topCount, total)
    }

    constructor ()
      ensures View() == NONE
    {
      topTid, topCount, total := 0, 0, 0;
    }

    method Record(tid: nat)
      modifies this
      ensures View() == Seen(old(View()), tid)
    {
      total := total + 1;
      if topCount == 0 || tid == topTid {
        topTid := tid;
        topCount := topCount + 1;
      } else {
        topCount := topCount - 1;
        if topCount == 0 {
          topTid := tid;
          topCount := 1;
        }
      }
    }
  }
}
