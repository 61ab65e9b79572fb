/** The choice of a strategy when a site specializes, and whether the compiler accepts the choice. */
module Picker {
  import opened Histogram
  import opened HistogramStore
  import opened KsTest
  import opened Ranking
  import opened ThreadDist
  import opened Analyzer
  import opened PhaseMachine
  import opened Codegen
  import X86

  const POINTER_SIZE: nat := 8
  const MULTI_CLASS_MAX: nat := 4

  /** The dominant mode has at least the truncated fraction of the events. */
  predicate Monomorphic(h: Hist, fraction: real)
    requires fraction >= 0.0
  {
    h.total > 0 && h.entries != [] && Dominant(h.entries).count >= Share(fraction, h.total)
  }

  /** A dominant freeing site whose frees match the allocation stack, each at 95 percent. */
  predicate PairedPattern(s: Site) {
    s.events > 0 && s.pair.pairs > 0 && 100 * s.pair.pairs >= 95 * s.events && 100 * s.pair.lifo >= 95 * s.pair.pairs
  }

  /** The dominant size of the window the site was compiled with. */
  function DominantSize(s: Site): nat { Dominant(s.now.hist.entries).size }

  /** Its learned size classes: at most four, covering nine tenths of the events if four can. */
  function ClassesOf(s: Site): seq<Mode> {
    if s.now.hist.total == 0 then [] else Classes(s.now.hist.entries, MULTI_CLASS_MAX, Share(0.90, s.now.hist.total))
  }

  /** The strategies the environment can force; Generic stands for no override. */
  predicate Overridable(forced: Strategy) {
    forced == Generic || forced == BumpAlloc || forced == ThreadLocalFreeList || forced == EpochArena
  }

  /** The candidate for a site found stable; forced is the override. */
  function Candidate(forced: Strategy, s: Site): Strategy {
    if forced != Generic then forced
    else if PairedPattern(s) then PairedStack
    else if PcPattern(s.allocs, s.freed) then ProducerConsumer
    else if Monomorphic(s.now.hist, 0.95) then
      if TagFor(s) != Hold && DominantSize(s) >= POINTER_SIZE then ThreadLocalFreeList else BumpAlloc
    else if |ClassesOf(s)| >= 2 then MultiSizeFreeList
    else ThreadLocalFreeList
  }

  /** A window of recorded sizes, none of them 0 and none lost. */
  ghost predicate Counting(h: Hist) {
    Sound(h) && !h.overflow && h.total > 0 && forall e :: e in h.entries ==> 0 < e.size < MAX_SIZE
  }

  lemma ModesFit(h: Hist, target: nat)
    requires Counting(h)
    ensures h.entries != [] && Dominant(h.entries) in h.entries
    ensures forall m :: m in Classes(h.entries, MULTI_CLASS_MAX, target) ==> m in h.entries
  {
    hide Classes, Dominant;
    ClassesAreEntries(h.entries, MULTI_CLASS_MAX, target);
  }

  /** What compile is asked for. */
  function Request(forced: Strategy, s: Site): Spec
    requires Counting(s.now.hist)
  {
    ModesFit(s.now.hist, Share(0.90, s.now.hist.total));
    var c := Candidate(forced, s);
    Spec(s.id, c, DominantSize(s), if c == MultiSizeFreeList then SizesFrom(ClassesOf(s), s.now.hist.entries) else [])
  }

  function SizesFrom(classes: seq<Mode>, ghost es: seq<Mode>): (sizes: seq<X86.U32>)
    requires (forall m :: m in classes ==> m in es) && forall e :: e in es ==> 0 < e.size < MAX_SIZE
    ensures |sizes| == |classes| && forall i :: 0 <= i < |classes| ==> sizes[i] == classes[i].size
  {
    if classes == [] then []
    else
      assert classes[|classes| - 1] in es;
      SizesFrom(classes[..|classes| - 1], es) + [classes[|classes| - 1].size]
  }

  /** advance_prespec's queries of the window, put together. */
  method Choose(forced: Strategy, s: Site, window: ExactHistogram) returns (spec: Spec)
    requires window.Valid() && window.View() == s.now.hist && Counting(s.now.hist)
    ensures spec == Request(forced, s)
  {
    hide Total, Share, IsTop, Covers, Dominant, Classes, PairedPattern, PcPattern, TagFor;
    ghost var h := s.now.hist;
    ModesFit(h, Share(0.90, h.total));
    var modes := new Mode[MULTI_CLASS_MAX](_ => Mode(0, 0));
    var n := window.TopKModes(modes, MULTI_CLASS_MAX, 0.90);
    CoverIsClasses(h.entries, modes[..n], MULTI_CLASS_MAX, Share(0.90, h.total));
    var best := window.DominantIndex();
    assert window.slots[..window.n][best] == window.slots[best];
    TopIsDominant(h.entries, window.slots[best]);
    var mono := window.slots[best].count >= Share(0.95, window.total);
    var c := forced;
    if forced == Generic {
      if PairedPattern(s) {
        c := PairedStack;
      } else if PcPattern(s.allocs, s.freed) {
        c := ProducerConsumer;
      } else if mono {
        c := if TagFor(s) != Hold && window.slots[best].size >= POINTER_SIZE then ThreadLocalFreeList else BumpAlloc;
      } else {
        c := if n >= 2 then MultiSizeFreeList else ThreadLocalFreeList;
      }
    }
    spec := Spec(s.id, c, window.slots[best].size,
                 if c == MultiSizeFreeList then SizesFrom(modes[..n], h.entries) else []);
  }

  // ----- every run compiles from a window that counts -----

  ghost predicate Sized(h: Hist) { Sound(h) && forall e :: e in h.entries ==> 0 < e.size < MAX_SIZE }

  ghost predicate SiteSized(s: Site) {
    Sized(s.now.hist) && (s.phase.Compiled? ==> Counting(s.now.hist) && s.now.hist == s.baseline)
  }

  lemma RecordedSized(h: Hist, size: nat)
    requires Sized(h) && 0 < size < MAX_SIZE
    ensures Sized(Recorded(h, size))
  {
    hide Sound;
    RecordSound(h, size);
    var es, n := h.entries, Recorded(h, size).entries;
    forall e | e in n
      ensures 0 < e.size < MAX_SIZE
    {
      var i :| 0 <= i < |n| && n[i] == e;
      if e.size != size {
        assert es[i] in es;
      }
    }
  }

  lemma EmptySized()
    ensures Sized(EMPTY)
  {
  }

  lemma AllocatedSized(cfg: Config, s: Site, size: nat, tid: nat, p: Ptr)
    requires SiteSized(s) && 0 < size < MAX_SIZE
    ensures SiteSized(Allocated(cfg, s, size, tid, p))
  {
    hide Sized, KsTest.Below, MaxGap, Recorded, Seen, Pushed, Sound;
    EmptySized();
    RecordedSized(s.now.hist, size);
    var r := Recorded(s.now.hist, size);
    assert Sized(r) && r.total > 0 && !r.overflow ==> Counting(r) by { SizedCounts(r); }
  }

  lemma SizedCounts(h: Hist)
    ensures Sized(h) && h.total > 0 && !h.overflow ==> Counting(h)
  {
  }

  ghost predicate AllSized(sites: seq<Site>) { forall i :: 0 <= i < |sites| ==> SiteSized(sites[i]) }

  lemma ActSized(cfg: Config, sites: seq<Site>, a: Action)
    requires AllSized(sites)
    ensures AllSized(Act(cfg, sites, a))
  {
    hide Sized, Counting, Allocated, FindSite, FindTop, Seen, Voted;
    EmptySized();
    if a.Observe? && a.ev.Alloc? && 0 < a.ev.size < MAX_SIZE {
      var t := Ensured(sites, a.ev.site);
      var k := FindSite(t, a.ev.site);
      if k < |t| {
        AllocatedSized(cfg, t[k], a.ev.size, a.ev.tid, a.ev.ptr);
      }
    }
  }

  lemma {:induction false} RunSized(cfg: Config, sites: seq<Site>, actions: seq<Action>)
    requires AllSized(sites)
    ensures AllSized(Run(cfg, sites, actions))
    decreases |actions|
  {
    hide AllSized, Act;
    if actions != [] {
      ActSized(cfg, sites, actions[0]);
      RunSized(cfg, Act(cfg, sites, actions[0]), actions[1..]);
    }
  }

  // ----- when the choice is refused -----

  /** What is too small to thread a free list through: the dominant size when a single list is forced
      or chosen, one of the classes when several lists are. */
  ghost predicate TooSmall(forced: Strategy, s: Site) {
    (forced == ThreadLocalFreeList && DominantSize(s) < POINTER_SIZE) ||
    (forced == Generic && !PairedPattern(s) && !PcPattern(s.allocs, s.freed) && !Monomorphic(s.now.hist, 0.95) &&
     if |ClassesOf(s)| >= 2 then exists m :: m in ClassesOf(s) && m.size < POINTER_SIZE
     else DominantSize(s) < POINTER_SIZE)
  }

  lemma RefusedWhen(forced: Strategy, s: Site)
    requires Overridable(forced) && Counting(s.now.hist)
    ensures !Admissible(Request(forced, s)) <==> TooSmall(forced, s)
  {
    hide PairedPattern, PcPattern, Monomorphic, Classes, Dominant, Sound, Share, TagFor;
    ModesFit(s.now.hist, Share(0.90, s.now.hist.total));
    var spec, classes := Request(forced, s), ClassesOf(s);
    if spec.strategy == MultiSizeFreeList {
      if m :| m in classes && m.size < POINTER_SIZE {
        var i :| 0 <= i < |classes| && classes[i] == m;
        assert spec.classSizes[i] < 8;
      }
      if i :| 0 <= i < |classes| && spec.classSizes[i] < 8 {
        assert classes[i] in classes;
      }
    }
  }

  // ----- the step that compiles a site -----

  /** The summary advance_prespec looks at: site s with an allocation event recorded. */
  function Observed(s: Site, size: nat, tid: nat, p: Ptr): Site {
    var e := Entered(Counted(s, tid, p));
    e.(now := Filled(e.now, size), cur := e.cur + [size])
  }

  /** Action a takes site k into phase Compiled. */
  ghost predicate Compiles(cfg: Config, before: seq<Site>, a: Action, k: nat) {
    var after := Act(cfg, before, a);
    k < |after| && after[k].phase.Compiled? && (k < |before| ==> !before[k].phase.Compiled?)
  }

  /** A site that was just created, or comes back from Deopt, has no earlier window to be stable against. */
  lemma CompilesFrom(cfg: Config, s: Site, size: nat, tid: nat, p: Ptr)
    requires !s.phase.Compiled? && Allocated(cfg, s, size, tid, p).phase.Compiled?
    requires s.phase.Deopt? ==> s.before == CLEAR
    ensures s.phase.PreSpec? && s.before != CLEAR
    ensures Allocated(cfg, s, size, tid, p) == Advanced(cfg, Observed(s, size, tid, p))
  {
    hide Stable, Recorded, Seen, Pushed;
  }

  /** Only an allocation event at the site itself compiles it. */
  lemma CompiledByAlloc(cfg: Config, before: seq<Site>, a: Action, k: nat)
    requires Compiles(cfg, before, a, k) && forall i :: 0 <= i < |before| && before[i].phase.Deopt? ==> before[i].before == CLEAR
    ensures k < |before| && before[k].phase.PreSpec? && a.Observe? && a.ev.Alloc? && a.ev.site == before[k].id
    ensures 0 < a.ev.size < MAX_SIZE
    ensures Act(cfg, before, a)[k] == Advanced(cfg, Observed(before[k], a.ev.size, a.ev.tid, a.ev.ptr))
  {
    hide Allocated, Advanced, Observed, FindSite, FindTop, Seen, Voted;
    if a.Observe? && a.ev.Alloc? && 0 < a.ev.size < MAX_SIZE {
      var t := Ensured(before, a.ev.site);
      CompilesFrom(cfg, t[k], a.ev.size, a.ev.tid, a.ev.ptr);
    }
  }

  lemma {:induction false} DeoptsClear(cfg: Config, sites: seq<Site>, actions: seq<Action>)
    requires Sane(cfg) && AllOk(cfg, sites)
    ensures var after := Run(cfg, sites, actions);
            forall i :: 0 <= i < |after| && after[i].phase.Deopt? ==> after[i].before == CLEAR
  {
    hide Run, Stable, HistOf, Converging;
    RunOk(cfg, sites, actions);
    var after := Run(cfg, sites, actions);
    forall i | 0 <= i < |after| && after[i].phase.Deopt?
      ensures after[i].before == CLEAR
    {
      assert SiteOk(cfg, after[i]);
    }
  }

  lemma {:induction false} RunThen(cfg: Config, sites: seq<Site>, actions: seq<Action>, a: Action)
    ensures Run(cfg, sites, actions + [a]) == Act(cfg, Run(cfg, sites, actions), a)
    decreases |actions|
  {
    hide Act;
    if actions == [] {
      assert [] + [a] == [a] && [a][1..] == [];
    } else {
      assert (actions + [a])[1..] == actions[1..] + [a];
      RunThen(cfg, Act(cfg, sites, actions[0]), actions[1..], a);
    }
  }

  lemma SameGrounds(cfg: Config, s: Site)
    requires Advanced(cfg, s).phase.Compiled? && s.phase.PreSpec?
    ensures var n := Advanced(cfg, s);
            n.id == s.id && n.now == s.now && n.events == s.events && n.allocs == s.allocs && n.freed == s.freed &&
            n.pair == s.pair && TagFor(n) == TagFor(s)
  {
    hide Stable;
  }

  lemma CompiledCounts(cfg: Config, actions: seq<Action>, k: nat)
    requires k < |Run(cfg, [], actions)| && Run(cfg, [], actions)[k].phase.Compiled?
    ensures var s := Run(cfg, [], actions)[k]; Counting(s.now.hist) && s.now.hist == s.baseline
  {
    hide Run, Counting, Sized;
    RunSized(cfg, [], actions);
    assert SiteSized(Run(cfg, [], actions)[k]);
  }

  /** The request made at that step is refused if and only if the size it has to thread a free list through
      cannot hold a pointer: for every run, every action that takes a site into phase Compiled, and every
      override. The window it is made from has events, none lost, of positive sizes, and becomes the
      baseline; marking the site compiled changes none of the request's grounds. */
  lemma RefusedExactly(cfg: Config, actions: seq<Action>, a: Action, k: nat, forced: Strategy)
    requires Sane(cfg) && Overridable(forced) && Compiles(cfg, Run(cfg, [], actions), a, k)
    ensures var before, after := Run(cfg, [], actions), Run(cfg, [], actions + [a]);
            k < |before| && before[k].phase.PreSpec? && a.Observe? && a.ev.Alloc? && a.ev.site == before[k].id &&
            var s := Observed(before[k], a.ev.size, a.ev.tid, a.ev.ptr);
            k < |after| && after[k] == Advanced(cfg, s) && after[k].now == s.now && after[k].baseline == s.now.hist &&
            Counting(s.now.hist) && Request(forced, after[k]) == Request(forced, s) &&
            (!Admissible(Request(forced, s)) <==> TooSmall(forced, s))
  {
    hide Run, Act, Counting, TooSmall, Admissible, Advanced, Observed, AllOk, Sized, Classes, Dominant, PcPattern, TagFor,
         SizesFrom;
    assert AllOk(cfg, []) by { NoSites(cfg); }
    DeoptsClear(cfg, [], actions);
    CompiledByAlloc(cfg, Run(cfg, [], actions), a, k);
    RunThen(cfg, [], actions, a);
    CompiledCounts(cfg, actions + [a], k);
    var s := Observed(Run(cfg, [], actions)[k], a.ev.size, a.ev.tid, a.ev.ptr);
    StillPreSpec(Run(cfg, [], actions)[k], a.ev.size, a.ev.tid, a.ev.ptr);
    SameGrounds(cfg, s);
    RefusedWhen(forced, s);
  }

  lemma NoSites(cfg: Config)
    ensures AllOk(cfg, [])
  {
  }

  lemma StillPreSpec(s: Site, size: nat, tid: nat, p: Ptr)
    requires s.phase.PreSpec?
    ensures Observed(s, size, tid, p).phase.PreSpec?
  {
  }

  /** In particular, nothing is refused when every size seen can hold a pointer. */
  lemma LargeSizesCompile(cfg: Config, actions: seq<Action>, a: Action, k: nat, forced: Strategy)
    requires Sane(cfg) && Overridable(forced) && Compiles(cfg, Run(cfg, [], actions), a, k)
    requires forall e :: e in Act(cfg, Run(cfg, [], actions), a)[k].baseline.entries ==> e.size >= POINTER_SIZE
    ensures var s := Act(cfg, Run(cfg, [], actions), a)[k]; Counting(s.now.hist) && Admissible(Request(forced, s))
  {
    hide Run, Act, Admissible, Request, Classes, Dominant, Sound, Advanced, Observed;
    RefusedExactly(cfg, actions, a, k, forced);
    RunThen(cfg, [], actions, a);
    var s := Run(cfg, [], actions + [a])[k];
    ModesFit(s.now.hist, Share(0.90, s.now.hist.total));
  }

  // ----- two sites that are compiled and refused -----

  function Copies(x: nat, n: nat): (q: seq<nat>)
    ensures |q| == n && forall y :: y in q ==> y == x
  {
    if n == 0 then [] else Copies(x, n - 1) + [x]
  }

  /** Allocations of the given sizes at a site, by one thread. */
  function Allocations(id: Id, sizes: seq<nat>): seq<Action> {
    seq(|sizes|, i requires 0 <= i < |sizes| => Observe(Alloc(id, sizes[i], 4096 + 64 * i, 1)))
  }

  lemma {:induction false} HistOne(x: nat, m: nat)
    requires m > 0 && x < MAX_SIZE
    ensures HistOf(Copies(x, m)) == Hist([Mode(x, m)], false, m)
  {
    var q := Copies(x, m);
    assert q[..m - 1] == Copies(x, m - 1);
    if m > 1 {
      HistOne(x, m - 1);
    } else {
      assert Copies(x, 0) == [];
    }
  }

  /** The second size recorded once more, the first time or later. */
  lemma RecordSecond(x: nat, m: nat, y: nat, n: nat)
    requires x != y && y < MAX_SIZE
    ensures Recorded(Hist([Mode(x, m)], false, m), y) == Hist([Mode(x, m), Mode(y, 1)], false, m + 1)
    ensures Recorded(Hist([Mode(x, m), Mode(y, n)], false, m + n), y) == Hist([Mode(x, m), Mode(y, n + 1)], false, m + n + 1)
  {
    var one, two := [Mode(x, m)], [Mode(x, m), Mode(y, n)];
    assert one[0].size == x && Find(one, y) == 1;
    assert two[0].size == x && two[1].size == y && Find(two, y) == 1;
  }

  lemma {:induction false} HistTwo(x: nat, m: nat, y: nat, n: nat)
    requires m > 0 && n > 0 && x != y && x < MAX_SIZE && y < MAX_SIZE
    ensures HistOf(Copies(x, m) + Copies(y, n)) == Hist([Mode(x, m), Mode(y, n)], false, m + n)
  {
    hide Recorded;
    var q := Copies(x, m) + Copies(y, n);
    assert q[..|q| - 1] == Copies(x, m) + Copies(y, n - 1);
    assert q[|q| - 1] == y;
    RecordSecond(x, m, y, n - 1);
    if n > 1 {
      HistTwo(x, m, y, n - 1);
    } else {
      HistOne(x, m);
      assert Copies(x, m) + Copies(y, 0) == Copies(x, m);
    }
  }

  lemma RankTwo(a: Mode, b: Mode)
    requires Better(a, b)
    ensures Ranked([a, b]) == [a, b] && Total([a]) == a.count && Total([a, b]) == a.count + b.count
  {
    assert [a, b][..1] == [a] && [a][..0] == [];
    assert Ranked([a]) == [a];
    assert Total([a]) == a.count;
  }

  /** The site after bar + 1 windows of m allocations of x and n of y. */
  lemma TwoSizes(cfg: Config, id: Id, x: nat, m: nat, y: nat, n: nat)
    requires Sane(cfg) && !cfg.traceOnly && cfg.window == m + n
    requires m > 0 && n > 0 && x != y && 0 < x < MAX_SIZE && 0 < y < MAX_SIZE && Better(Mode(x, m), Mode(y, n))
    ensures var after := Run(cfg, [], Allocations(id, Repeat(Copies(x, m) + Copies(y, n), cfg.bar + 1)));
            |after| == 1 && after[0].phase.Compiled? && after[0].firstCompile == after[0].events &&
            after[0].now.hist == Hist([Mode(x, m), Mode(y, n)], false, m + n) &&
            Ranked(after[0].now.hist.entries) == [Mode(x, m), Mode(y, n)] &&
            !PairedPattern(after[0]) && !PcPattern(after[0].allocs, after[0].freed)
  {
    hide Run, HistOf, Ranked, Better, Total;
    var w := Copies(x, m) + Copies(y, n);
    HistTwo(x, m, y, n);
    RankTwo(Mode(x, m), Mode(y, n));
    RepeatedWindowCompiles(cfg, id, w, Allocations(id, Repeat(w, cfg.bar + 1)));
  }

  /** A window of 2 allocations of 4 bytes and 2 of 16, seen twice: the last event compiles the site as a multi-size
      free list with a 4-byte class, which the compiler refuses. */
  lemma RefusedClass()
    ensures var cfg := Config(4, 1, 0.05, 3, false, false);
            var after := Run(cfg, [], Allocations(5, Repeat(Copies(4, 2) + Copies(16, 2), 2)));
            |after| == 1 && after[0].phase.Compiled? && after[0].firstCompile == after[0].events &&
            Counting(after[0].now.hist) &&
            Candidate(Generic, after[0]) == MultiSizeFreeList && !Admissible(Request(Generic, after[0]))
  {
    hide Run, Counting, Request, Admissible, PairedPattern, PcPattern, Ranked, Repeat, Copies, Allocations;
    var cfg := Config(4, 1, 0.05, 3, false, false);
    TwoSizes(cfg, 5, 4, 2, 16, 2);
    var actions := Allocations(5, Repeat(Copies(4, 2) + Copies(16, 2), 2));
    var s := Run(cfg, [], actions)[0];
    RankTwo(Mode(4, 2), Mode(16, 2));
    assert Share(0.95, 4) == 3 && Share(0.90, 4) == 3;
    var r := [Mode(4, 2), Mode(16, 2)];
    assert r[..1] == [Mode(4, 2)] && r[..2] == r;
    assert Cut(r, 4, 3, 1) == Cut(r, 4, 3, 2) == r;
    assert ClassesOf(s) == [Mode(4, 2), Mode(16, 2)];
    assert ClassesOf(s)[0] == Mode(4, 2);
    CompiledCounts(cfg, actions, 0);
    RefusedWhen(Generic, s);
  }

  /** A window of 18 allocations of 4 bytes and 2 of 16, seen twice: one class covers nine tenths, but the
      site is not monomorphic; the last event compiles it as a free list of 4-byte chunks, which is refused as well. */
  lemma RefusedList()
    ensures var cfg := Config(20, 1, 0.05, 3, false, false);
            var after := Run(cfg, [], Allocations(5, Repeat(Copies(4, 18) + Copies(16, 2), 2)));
            |after| == 1 && after[0].phase.Compiled? && after[0].firstCompile == after[0].events &&
            Counting(after[0].now.hist) &&
            Candidate(Generic, after[0]) == ThreadLocalFreeList && !Admissible(Request(Generic, after[0]))
  {
    hide Run, Counting, Request, Admissible, PairedPattern, PcPattern, Ranked, Repeat, Copies, Allocations;
    var cfg := Config(20, 1, 0.05, 3, false, false);
    TwoSizes(cfg, 5, 4, 18, 16, 2);
    var actions := Allocations(5, Repeat(Copies(4, 18) + Copies(16, 2), 2));
    var s := Run(cfg, [], actions)[0];
    RankTwo(Mode(4, 18), Mode(16, 2));
    assert Share(0.95, 20) == 19 && Share(0.90, 20) == 18;
    var r := [Mode(4, 18), Mode(16, 2)];
    assert r[..1] == [Mode(4, 18)];
    assert Cut(r, 4, 18, 1) == r[..1];
    assert ClassesOf(s) == [Mode(4, 18)];
    CompiledCounts(cfg, actions, 0);
    RefusedWhen(Generic, s);
  }
}
