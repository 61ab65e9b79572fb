/** Which strategy a site is compiled with, from its own history in any run. */
module Choices {
  import opened Histogram
  import opened HistogramStore
  import opened Ranking
  import opened ThreadDist
  import opened Analyzer
  import opened PhaseMachine
  import opened History
  import opened Convergence
  import opened Picker
  import opened Codegen

  // ----- the window a site is compiled with -----

  /** The last n of a list that has as many. */
  function LastOf(q: seq<nat>, n: nat): seq<nat> { if |q| <= n then q else q[|q| - n..] }

  lemma {:induction false} HistoryThen(cfg: Config, sites: seq<Site>, actions: seq<Action>, a: Action, id: Id)
    ensures HistoryOf(cfg, sites, actions + [a], id) ==
            HistoryOf(cfg, sites, actions, id) + OwnOf(Run(cfg, sites, actions), a, id)
    decreases |actions|
  {
    hide Act, OwnOf;
    if actions == [] {
      assert [] + [a] == [a] && [a][1..] == [];
      assert HistoryOf(cfg, Act(cfg, sites, a), [], id) == [];
    } else {
      assert (actions + [a])[0] == actions[0] && (actions + [a])[1..] == actions[1..] + [a];
      HistoryThen(cfg, Act(cfg, sites, actions[0]), actions[1..], a, id);
    }
  }

  lemma {:induction false} SizesFit(cfg: Config, sites: seq<Site>, actions: seq<Action>, id: Id)
    ensures forall x :: x in Sizes(HistoryOf(cfg, sites, actions, id)) ==> 0 < x < 4096
    decreases |actions|
  {
    hide Act, FindSite, FindTop;
    if actions != [] {
      var o, rest := OwnOf(sites, actions[0], id), HistoryOf(cfg, Act(cfg, sites, actions[0]), actions[1..], id);
      SizesFit(cfg, Act(cfg, sites, actions[0]), actions[1..], id);
      SizesConcat(o, rest);
      if o != [] {
        assert o[..0] == [];
      }
    }
  }

  /** What a choice is made from: the site's history, and its last window. */
  ghost predicate Grounds(cfg: Config, s: Site, h: seq<Own>, w: seq<nat>) {
    s == Fold(cfg, Fresh(s.id), h) && Matched(cfg, Fresh(s.id), h) &&
    s.events == |AllocTids(h)| > 0 && s.frees == |FreeTids(h)| &&
    s.allocs == DistOf(AllocTids(h)) && s.freed == DistOf(FreeTids(h)) &&
    s.pair.freeSite == DistOf(Freers(h)).topTid && s.pair.pairs == DistOf(Freers(h)).topCount &&
    s.now.hist == HistOf(w) && Counting(s.now.hist) && s.now.hist.total == |w| == cfg.window &&
    forall x :: x in w ==> 0 < x < 4096
  }

  lemma CompiledBy(cfg: Config, s: Site)
    requires Advanced(cfg, s).phase.Compiled? && s.phase.PreSpec?
    ensures Advanced(cfg, s).past == s.past + [s.cur] && Advanced(cfg, s).lifetime == TagFor(s)
    ensures Advanced(cfg, s).id == s.id && Advanced(cfg, s).events == s.events && Advanced(cfg, s).frees == s.frees
  {
    hide KsTest.Stable;
  }

  lemma ObservedIs(s: Site, size: nat, tid: nat, p: Ptr)
    requires s.phase.PreSpec?
    ensures var b := Observed(s, size, tid, p);
            b.phase.PreSpec? && b.id == s.id && b.events == s.events + 1 && b.cur == s.cur + [size] && b.frees == s.frees
  {
    hide Recorded, Seen, Pushed;
  }

  lemma CurIsLast(q: seq<nat>, p: seq<nat>, w: seq<nat>)
    requires EndsWith(q, p + w)
    ensures EndsWith(q, w)
  {
    assert (p + w)[|p|..] == w;
  }

  /** The full window is the end of the site's allocations. */
  lemma WindowEnds(cfg: Config, actions: seq<Action>, a: Action, k: nat)
    requires k < |Run(cfg, [], actions)| && Run(cfg, [], actions)[k].phase.PreSpec?
    requires a.Observe? && a.ev.Alloc? && a.ev.site == Run(cfg, [], actions)[k].id && 0 < a.ev.size < MAX_SIZE
    ensures var s := Run(cfg, [], actions)[k];
            EndsWith(Sizes(HistoryOf(cfg, [], actions + [a], s.id)), s.cur + [a.ev.size])
  {
    hide Run, HistoryOf, Fold, EndsWith, Flat, Sizes, Fresh, DistinctIds;
    var before := Run(cfg, [], actions);
    var s := before[k];
    var h := HistoryOf(cfg, [], actions, s.id);
    SiteIsItsHistory(cfg, actions, k);
    WindowsEnd(cfg, s.id, h);
    CurIsLast(Sizes(h), Flat(s.past), s.cur);
    NoIds();
    RunView(cfg, [], actions, s.id);
    ViewAt(before, k);
    HistoryThen(cfg, [], actions, a, s.id);
    var o := Alloced(a.ev.size, a.ev.tid, a.ev.ptr);
    assert OwnOf(before, a, s.id) == [o];
    SizesMore(h, o);
    EndsMore(Sizes(h), s.cur, a.ev.size);
  }

  lemma SizesMore(h: seq<Own>, o: Own)
    requires o.Alloced?
    ensures Sizes(h + [o]) == Sizes(h) + [o.size]
  {
    Snoc(h, o);
  }

  lemma LastIs(q: seq<nat>, w: seq<nat>, n: nat)
    requires EndsWith(q, w) && |w| == n
    ensures LastOf(q, n) == w && forall x :: x in w ==> x in q
  {
  }

  /** At the step of any run that compiles a site: its summary is its history's, its window the last of its
      allocations, and its lifetime tag the one its share of frees calls for. */
  lemma CompiledFrom(cfg: Config, actions: seq<Action>, a: Action, k: nat)
    requires Sane(cfg) && Compiles(cfg, Run(cfg, [], actions), a, k)
    ensures var s := Act(cfg, Run(cfg, [], actions), a)[k];
            var h := HistoryOf(cfg, [], actions + [a], s.id);
            Grounds(cfg, s, h, LastOf(Sizes(h), cfg.window)) &&
            s.lifetime == (if 100 * s.frees >= 50 * s.events then Reap else if 100 * s.frees < 10 * s.events then Hold
                           else Unknown)
  {
    hide Run, HistoryOf, Fold, HistOf, Counting, Admissible, Request, TooSmall, Advanced, Observed, Matched, EndsWith, Sizes, OwnOf,
         DistinctIds, Act, View, Fresh, AllocTids, FreeTids, Freers, Resets, DistOf, LastOf, Converging, TagFor;
    RefusedExactly(cfg, actions, a, k, Generic);
    var s := Run(cfg, [], actions + [a])[k];
    var h := HistoryOf(cfg, [], actions + [a], s.id);
    var b := Observed(Run(cfg, [], actions)[k], a.ev.size, a.ev.tid, a.ev.ptr);
    var w := Run(cfg, [], actions)[k].cur + [a.ev.size];
    RunThen(cfg, [], actions, a);
    ObservedIs(Run(cfg, [], actions)[k], a.ev.size, a.ev.tid, a.ev.ptr);
    CompiledBy(cfg, b);
    SameGrounds(cfg, b);
    TagIs(b);
    CompiledMeans(cfg, actions + [a], k);
    assert s.past[|s.past| - 1] == w && |w| == cfg.window;
    assert 0 < a.ev.size < MAX_SIZE by { CompiledSize(cfg, actions, a, k); }
    WindowEnds(cfg, actions, a, k);
    LastIs(Sizes(h), w, cfg.window);
    SizesFit(cfg, [], actions + [a], s.id);
    AllRecorded(w);
    SummaryTallies(cfg, actions + [a], k);
    SiteIsItsHistory(cfg, actions + [a], k);
    NoIds();
    RunMatches(cfg, [], actions + [a], s.id);
    Unseen(s.id);
  }

  lemma CompiledSize(cfg: Config, actions: seq<Action>, a: Action, k: nat)
    requires Sane(cfg) && Compiles(cfg, Run(cfg, [], actions), a, k)
    ensures a.Observe? && a.ev.Alloc? && 0 < a.ev.size < MAX_SIZE
  {
    hide Run, Act, AllOk;
    assert AllOk(cfg, []) by { NoSites(cfg); }
    DeoptsClear(cfg, [], actions);
    CompiledByAlloc(cfg, Run(cfg, [], actions), a, k);
  }

  lemma TagIs(s: Site)
    requires s.events > 0
    ensures TagFor(s) == (if 100 * s.frees >= 50 * s.events then Reap else if 100 * s.frees < 10 * s.events then Hold
                          else Unknown)
  {
  }

  // ----- patterns of threads and of sites -----

  /** No site freed 95 percent as many chunks as were allocated. */
  ghost predicate NotPaired(h: seq<Own>) { forall f :: 100 * Times(Freers(h), f) < 95 * |AllocTids(h)| }

  /** No two different threads made 95 percent of the allocations, the one, and of the frees, the other. */
  ghost predicate NoPattern(h: seq<Own>) {
    FreeTids(h) == [] || forall p, c :: p != c && 100 * Times(AllocTids(h), p) >= 95 * |AllocTids(h)| ==>
      100 * Times(FreeTids(h), c) < 95 * |FreeTids(h)|
  }

  lemma PairedSeen(cfg: Config, s: Site, h: seq<Own>, w: seq<nat>, f: Id)
    requires Grounds(cfg, s, h, w) && 100 * (2 * Times(Freers(h), f) - |Freers(h)|) >= 95 * |AllocTids(h)|
    ensures PairedPattern(s)
  {
    hide Fold, Matched, AllocTids, FreeTids, Freers, DistOf, HistOf, Counting, Times;
    MajorityIsTop(Freers(h), f);
    LifoFolds(cfg, s.id, h);
  }

  lemma UnpairedSeen(cfg: Config, s: Site, h: seq<Own>, w: seq<nat>)
    requires Grounds(cfg, s, h, w) && NotPaired(h)
    ensures !PairedPattern(s)
  {
    hide Fold, Matched, AllocTids, FreeTids, Freers, DistOf, HistOf, Counting;
    TopIsSound(Freers(h));
    assert 100 * Times(Freers(h), DistOf(Freers(h)).topTid) < 95 * |AllocTids(h)|;
  }

  lemma UnpatternedSeen(cfg: Config, s: Site, h: seq<Own>, w: seq<nat>)
    requires Grounds(cfg, s, h, w) && NoPattern(h)
    ensures !PcPattern(s.allocs, s.freed)
  {
    hide Fold, Matched, AllocTids, FreeTids, Freers, DistOf, HistOf, Counting;
    TopIsSound(FreeTids(h));
    if PcPattern(s.allocs, s.freed) {
      PatternIsReal(AllocTids(h), FreeTids(h));
    }
  }

  // ----- the sizes of the window, most frequent first -----

  /** x occurs more often than y, or as often and is smaller. */
  predicate Beats(w: seq<nat>, x: nat, y: nat) {
    Occurrences(w, x) > Occurrences(w, y) || (Occurrences(w, x) == Occurrences(w, y) && x < y)
  }

  /** The sizes are the most frequent of the window, in order. */
  ghost predicate Leading(w: seq<nat>, sizes: seq<nat>) {
    forall i :: 0 <= i < |sizes| ==>
      sizes[i] in w && forall y :: y in w && y !in sizes[..i] && y != sizes[i] ==> Beats(w, sizes[i], y)
  }

  /** The events of the window of one of the sizes. */
  function Covered(w: seq<nat>, sizes: seq<nat>): nat {
    if sizes == [] then 0 else Covered(w, sizes[..|sizes| - 1]) + Occurrences(w, sizes[|sizes| - 1])
  }

  /** The entries of a histogram that lost nothing are the sizes of its window with their occurrences. */
  lemma EntryOccurs(w: seq<nat>, e: Mode)
    requires !HistOf(w).overflow && (forall x :: x in w ==> x < MAX_SIZE) && e in HistOf(w).entries
    ensures e.size in w && e.count == Occurrences(w, e.size)
  {
    hide HistOf, CountAt, Occurrences, SizesOf;
    HistOfSound(w);
    OverflowExactly(w);
    var es := HistOf(w).entries;
    var k :| 0 <= k < |es| && es[k] == e;
    SizesHas(es, e.size);
    CountAtTracked(es, k);
    HistIsDense(w, e.size);
  }

  lemma SizeListed(w: seq<nat>, y: nat)
    requires !HistOf(w).overflow && (forall x :: x in w ==> x < MAX_SIZE) && y in w
    ensures Mode(y, Occurrences(w, y)) in HistOf(w).entries
  {
    hide HistOf, CountAt, Occurrences, SizesOf;
    HistOfSound(w);
    OverflowExactly(w);
    var es := HistOf(w).entries;
    assert y in Tracked(w);
    SizesHas(es, y);
    var k := Find(es, y);
    CountAtTracked(es, k);
    HistIsDense(w, y);
    assert es[k] == Mode(y, Occurrences(w, y));
  }

  function SizesIn(r: seq<Mode>): (sizes: seq<nat>)
    ensures |sizes| == |r| && forall i :: 0 <= i < |r| ==> sizes[i] == r[i].size
  {
    if r == [] then [] else SizesIn(r[..|r| - 1]) + [r[|r| - 1].size]
  }

  lemma LeadingAt(w: seq<nat>, n: nat, i: nat, y: nat)
    requires !HistOf(w).overflow && (forall x :: x in w ==> x < MAX_SIZE)
    requires i < n <= |HistOf(w).entries| && y in w
    requires var r := Ranked(HistOf(w).entries)[..n]; y !in SizesIn(r)[..i] && y != r[i].size
    ensures Beats(w, Ranked(HistOf(w).entries)[i].size, y)
  {
    hide HistOf, Ranked, Occurrences, Descending, SizesIn;
    HistOfSound(w);
    var r := Ranked(HistOf(w).entries);
    RankedIsRanked(HistOf(w).entries);
    SizeListed(w, y);
    var e := Mode(y, Occurrences(w, y));
    forall j | 0 <= j < i
      ensures r[..i][j] != e
    {
      assert SizesIn(r[..n])[..i][j] == r[j].size;
    }
    NextInRank(r, i, e);
    assert r[i] in r;
    EntryOccurs(w, r[i]);
  }

  lemma RankLeads(w: seq<nat>, n: nat)
    requires !HistOf(w).overflow && (forall x :: x in w ==> x < MAX_SIZE) && n <= |HistOf(w).entries|
    ensures Leading(w, SizesIn(Ranked(HistOf(w).entries)[..n]))
  {
    hide HistOf, Ranked, Occurrences, Descending, SizesIn, Beats;
    HistOfSound(w);
    var r := Ranked(HistOf(w).entries);
    var sizes := SizesIn(r[..n]);
    RankedIsRanked(HistOf(w).entries);
    forall i | 0 <= i < |sizes|
      ensures sizes[i] in w && forall y :: y in w && y !in sizes[..i] && y != sizes[i] ==> Beats(w, sizes[i], y)
    {
      assert r[i] in r;
      EntryOccurs(w, r[i]);
      forall y | y in w && y !in sizes[..i] && y != sizes[i]
        ensures Beats(w, sizes[i], y)
      {
        LeadingAt(w, n, i, y);
      }
    }
  }

  lemma {:induction false} RankCovers(w: seq<nat>, n: nat)
    requires !HistOf(w).overflow && (forall x :: x in w ==> x < MAX_SIZE) && n <= |HistOf(w).entries|
    ensures Total(Ranked(HistOf(w).entries)[..n]) == Covered(w, SizesIn(Ranked(HistOf(w).entries)[..n]))
  {
    hide HistOf, Ranked, Occurrences, Descending;
    if n > 0 {
      HistOfSound(w);
      var r := Ranked(HistOf(w).entries);
      RankedIsRanked(HistOf(w).entries);
      assert r[n - 1] in r;
      EntryOccurs(w, r[n - 1]);
      RankCovers(w, n - 1);
      assert r[..n][..n - 1] == r[..n - 1];
    }
  }

  lemma {:induction false} CutStops(r: seq<Mode>, k: nat, target: nat, p: nat)
    requires p <= |r| && p <= k
    ensures var c := Cut(r, k, target, p);
            (forall q :: p <= q < |c| && q > 0 ==> Total(r[..q]) < target) &&
            (|c| == k || |c| == |r| || (|c| > 0 && Total(c) >= target))
    decreases |r| - p
  {
    hide Total;
    if !(p == k || p == |r| || (p > 0 && Total(r[..p]) >= target)) {
      CutStops(r, k, target, p + 1);
    }
  }

  lemma ShareAt(n: nat, total: nat)
    ensures n >= Share(0.95, total) <==> 100 * (n + 1) > 95 * total
    ensures n >= Share(0.90, total) <==> 100 * (n + 1) > 90 * total
  {
  }

  /** The strategy for a window with no pattern, m being the occurrences of its most frequent size. */
  function BySizes(m: nat, total: nat, size: nat, rarelyFreed: bool): Strategy {
    if 100 * (m + 1) > 95 * total then if rarelyFreed || size < 8 then BumpAlloc else ThreadLocalFreeList
    else if 100 * (m + 1) > 90 * total then ThreadLocalFreeList
    else MultiSizeFreeList
  }

  lemma DominantSeen(s: Site, w: seq<nat>)
    requires s.now.hist == HistOf(w) && Counting(s.now.hist) && forall x :: x in w ==> 0 < x < MAX_SIZE
    ensures var es := s.now.hist.entries;
            es != [] && Leading(w, [DominantSize(s)]) && Dominant(es).count == Occurrences(w, DominantSize(s)) &&
            Total(Ranked(es)[..1]) == Dominant(es).count
  {
    hide HistOf, Occurrences, Leading, Classes, Descending;
    var es := s.now.hist.entries;
    ModesFit(s.now.hist, 0);
    RankLeads(w, 1);
    EntryOccurs(w, Dominant(es));
    var one := Ranked(es)[..1];
    assert SizesIn(one) == [DominantSize(s)];
    assert one[..0] == [];
  }

  lemma ClassesStop(s: Site, w: seq<nat>)
    requires s.now.hist == HistOf(w) && Counting(s.now.hist) && forall x :: x in w ==> 0 < x < MAX_SIZE
    ensures var c := ClassesOf(s); var es, t := s.now.hist.entries, Share(0.90, s.now.hist.total);
            |c| <= 4 && |c| <= |es| && c == Ranked(es)[..|c|] && (forall q :: 0 < q < |c| ==> Total(Ranked(es)[..q]) < t) &&
            (|c| == 4 || |c| == |es| || (|c| > 0 && Total(c) >= t))
  {
    hide HistOf, Total, Ranked, Cut;
    CutStops(Ranked(s.now.hist.entries), 4, Share(0.90, s.now.hist.total), 0);
  }

  lemma OneEntry(h: Hist, e: Mode)
    requires Counting(h) && |h.entries| == 1 && e in h.entries
    ensures e.count == h.total
  {
    assert h.entries == [e] && [e][..0] == [];
    assert Total([e]) == Total([]) + e.count;
  }

  /** Two classes or more exactly when no size makes up nine tenths. */
  lemma ManyClasses(s: Site, w: seq<nat>)
    requires s.now.hist == HistOf(w) && Counting(s.now.hist) && forall x :: x in w ==> 0 < x < MAX_SIZE
    ensures |ClassesOf(s)| >= 2 <==> 100 * (Occurrences(w, DominantSize(s)) + 1) <= 90 * s.now.hist.total
  {
    hide HistOf, Occurrences, Leading, Classes, Share, Total, Ranked;
    var es, m := s.now.hist.entries, Occurrences(w, DominantSize(s));
    DominantSeen(s, w);
    ClassesStop(s, w);
    ShareAt(m, s.now.hist.total);
    ModesFit(s.now.hist, 0);
    if |es| == 1 {
      OneEntry(s.now.hist, Dominant(es));
    }
  }

  lemma SizesSeen(cfg: Config, s: Site, h: seq<Own>, w: seq<nat>)
    requires Grounds(cfg, s, h, w) && NotPaired(h) && NoPattern(h)
    ensures var spec := Request(Generic, s);
            Leading(w, [spec.size]) && spec.size == DominantSize(s) &&
            spec.strategy == BySizes(Occurrences(w, spec.size), |w|, spec.size, 100 * s.frees < 10 * s.events)
  {
    hide HistOf, Occurrences, Leading, Share, Total, Ranked, Classes, Fold, Matched, AllocTids, FreeTids, Freers, DistOf,
         PairedPattern, PcPattern, NotPaired, NoPattern, SizesFrom;
    UnpairedSeen(cfg, s, h, w);
    UnpatternedSeen(cfg, s, h, w);
    DominantSeen(s, w);
    ShareAt(Occurrences(w, DominantSize(s)), s.now.hist.total);
    ManyClasses(s, w);
  }

  /** The classes are the most frequent sizes, as few as cover nine tenths, or four, or all. */
  lemma ClassesSeen(s: Site, w: seq<nat>)
    requires s.now.hist == HistOf(w) && Counting(s.now.hist) && forall x :: x in w ==> 0 < x < MAX_SIZE
    ensures var c := SizesIn(ClassesOf(s));
            |c| <= 4 && Leading(w, c) &&
            (forall q :: 0 < q < |c| ==> 100 * (Covered(w, c[..q]) + 1) <= 90 * s.now.hist.total) &&
            (|c| == 4 || (forall y :: y in w ==> y in c) || 100 * (Covered(w, c) + 1) > 90 * s.now.hist.total)
  {
    hide HistOf, Occurrences, Leading, Share, Total, Ranked, Classes, Covered, SizesIn;
    ClassesStop(s, w);
    var es, c := s.now.hist.entries, ClassesOf(s);
    RankLeads(w, |c|);
    RankCovers(w, |c|);
    ShareAt(Covered(w, SizesIn(c)), s.now.hist.total);
    forall q | 0 < q < |c|
      ensures 100 * (Covered(w, SizesIn(c)[..q]) + 1) <= 90 * s.now.hist.total
    {
      RankCovers(w, q);
      ShareAt(Total(Ranked(es)[..q]), s.now.hist.total);
      assert SizesIn(Ranked(es)[..q]) == SizesIn(c)[..q];
    }
    if |c| == |es| {
      AllListed(w);
    }
  }

  lemma AllListed(w: seq<nat>)
    requires !HistOf(w).overflow && (forall x :: x in w ==> x < MAX_SIZE)
    ensures forall y :: y in w ==> y in SizesIn(Ranked(HistOf(w).entries)[..|HistOf(w).entries|])
  {
    hide HistOf, Ranked, Occurrences, Descending, SizesIn;
    HistOfSound(w);
    var r := Ranked(HistOf(w).entries);
    RankedIsRanked(HistOf(w).entries);
    forall y | y in w
      ensures y in SizesIn(r[..|r|])
    {
      SizeListed(w, y);
      var j :| 0 <= j < |r| && r[j] == Mode(y, Occurrences(w, y));
      assert SizesIn(r[..|r|])[j] == y;
    }
  }

  // ----- the choice, over runs -----

  /** A site whose chunks were freed by one site, and the lead of that site over all others is at least 95 frees
      to 100 allocations: a paired stack. */
  lemma PairedStackChosen(cfg: Config, actions: seq<Action>, a: Action, k: nat, f: Id)
    requires Sane(cfg) && Compiles(cfg, Run(cfg, [], actions), a, k)
    requires var h := HistoryOf(cfg, [], actions + [a], Act(cfg, Run(cfg, [], actions), a)[k].id);
             100 * (2 * Times(Freers(h), f) - |Freers(h)|) >= 95 * |AllocTids(h)|
    ensures var s := Act(cfg, Run(cfg, [], actions), a)[k];
            Counting(s.now.hist) && Request(Generic, s).strategy == PairedStack
  {
    hide Run, Act, HistoryOf, Fold, Matched, HistOf, Counting, AllocTids, FreeTids, Freers, DistOf, PairedPattern,
         PcPattern, Classes, Dominant, SizesFrom, Sizes, LastOf;
    CompiledFrom(cfg, actions, a, k);
    var s := Act(cfg, Run(cfg, [], actions), a)[k];
    var h := HistoryOf(cfg, [], actions + [a], s.id);
    PairedSeen(cfg, s, h, LastOf(Sizes(h), cfg.window), f);
  }

  /** One thread allocates and another frees, 97.5 percent each, and no site frees in pairs. */
  lemma ProducerConsumerChosen(cfg: Config, actions: seq<Action>, a: Action, k: nat, p: nat, c: nat)
    requires Sane(cfg) && Compiles(cfg, Run(cfg, [], actions), a, k)
    requires var h := HistoryOf(cfg, [], actions + [a], Act(cfg, Run(cfg, [], actions), a)[k].id);
             NotPaired(h) && p != c && FreeTids(h) != [] &&
             1000 * Times(AllocTids(h), p) >= 975 * |AllocTids(h)| && 1000 * Times(FreeTids(h), c) >= 975 * |FreeTids(h)|
    ensures var s := Act(cfg, Run(cfg, [], actions), a)[k];
            Counting(s.now.hist) && Request(Generic, s).strategy == ProducerConsumer
  {
    hide Run, Act, HistoryOf, Fold, Matched, HistOf, Counting, AllocTids, FreeTids, Freers, DistOf, PairedPattern,
         PcPattern, Classes, Dominant, SizesFrom, Sizes, LastOf, NotPaired, Times;
    CompiledFrom(cfg, actions, a, k);
    var s := Act(cfg, Run(cfg, [], actions), a)[k];
    var h := HistoryOf(cfg, [], actions + [a], s.id);
    UnpairedSeen(cfg, s, h, LastOf(Sizes(h), cfg.window));
    PatternIsFound(AllocTids(h), FreeTids(h), p, c);
  }

  /** Exactly when either is asked for: the majority counter over the freeing sites reaches 95 to 100 allocations; or it does
      not, and those over the allocating and the freeing threads reach 95 percent with different threads. */
  lemma PatternsExactly(cfg: Config, actions: seq<Action>, a: Action, k: nat)
    requires Sane(cfg) && Compiles(cfg, Run(cfg, [], actions), a, k)
    ensures var s := Act(cfg, Run(cfg, [], actions), a)[k];
            var h := HistoryOf(cfg, [], actions + [a], s.id);
            var allocs, frees, freers := DistOf(AllocTids(h)), DistOf(FreeTids(h)), DistOf(Freers(h));
            Counting(s.now.hist) &&
            (Request(Generic, s).strategy == PairedStack <==> 100 * freers.topCount >= 95 * |AllocTids(h)|) &&
            (Request(Generic, s).strategy == ProducerConsumer <==>
              100 * freers.topCount < 95 * |AllocTids(h)| && FreeTids(h) != [] &&
              100 * allocs.topCount >= 95 * |AllocTids(h)| && 100 * frees.topCount >= 95 * |FreeTids(h)| &&
              allocs.topTid != frees.topTid)
  {
    hide Run, Act, HistoryOf, Fold, Matched, HistOf, Counting, AllocTids, FreeTids, Freers, DistOf, Classes, Dominant, SizesFrom,
         Sizes, LastOf, Monomorphic, TagFor, Times;
    CompiledFrom(cfg, actions, a, k);
    var s := Act(cfg, Run(cfg, [], actions), a)[k];
    var h := HistoryOf(cfg, [], actions + [a], s.id);
    LifoFolds(cfg, s.id, h);
    TopIsSound(AllocTids(h));
    TopIsSound(FreeTids(h));
  }

  /** With neither, the sizes of the last window decide: its most frequent one is the size; one that makes up 95
      percent is a free list, or a bump page when chunks are rarely freed or cannot hold a pointer; one that makes up
      90 percent a free list; and otherwise two to four lists, of the most frequent sizes. */
  lemma SizesChosen(cfg: Config, actions: seq<Action>, a: Action, k: nat)
    requires Sane(cfg) && Compiles(cfg, Run(cfg, [], actions), a, k)
    requires var h := HistoryOf(cfg, [], actions + [a], Act(cfg, Run(cfg, [], actions), a)[k].id);
             NotPaired(h) && NoPattern(h)
    ensures var s := Act(cfg, Run(cfg, [], actions), a)[k];
            var h := HistoryOf(cfg, [], actions + [a], s.id);
            var w := LastOf(Sizes(h), cfg.window);
            Counting(s.now.hist) && var spec := Request(Generic, s);
            Leading(w, [spec.size]) &&
            spec.strategy == BySizes(Occurrences(w, spec.size), |w|, spec.size, 100 * |FreeTids(h)| < 10 * |AllocTids(h)|)
  {
    hide Run, Act, HistoryOf, Fold, Matched, HistOf, Counting, AllocTids, FreeTids, Freers, DistOf, Request,
         Sizes, LastOf, NotPaired, NoPattern, Leading, Occurrences, BySizes, DominantSize;
    CompiledFrom(cfg, actions, a, k);
    var s := Act(cfg, Run(cfg, [], actions), a)[k];
    var h := HistoryOf(cfg, [], actions + [a], s.id);
    SizesSeen(cfg, s, h, LastOf(Sizes(h), cfg.window));
  }

  /** The page asked for is the site's.  The lists are of the most frequent sizes, in order: as few as cover nine tenths of the window, or
      four, or all there are. */
  lemma ClassesChosen(cfg: Config, actions: seq<Action>, a: Action, k: nat)
    requires Sane(cfg) && Compiles(cfg, Run(cfg, [], actions), a, k)
    ensures var s := Act(cfg, Run(cfg, [], actions), a)[k];
            var w := LastOf(Sizes(HistoryOf(cfg, [], actions + [a], s.id)), cfg.window);
            Counting(s.now.hist) && var spec := Request(Generic, s);
            var c: seq<nat> := spec.classSizes;
            spec.id == s.id && (spec.strategy != MultiSizeFreeList ==> c == []) &&
            (spec.strategy == MultiSizeFreeList ==>
              2 <= |c| <= 4 && Leading(w, c) &&
              (forall q :: 0 < q < |c| ==> 100 * (Covered(w, c[..q]) + 1) <= 90 * |w|) &&
              (|c| == 4 || (forall y :: y in w ==> y in c) || 100 * (Covered(w, c) + 1) > 90 * |w|))
  {
    hide Run, Act, HistoryOf, Fold, Matched, HistOf, Counting, AllocTids, FreeTids, Freers, DistOf,
         Sizes, LastOf, Leading, Covered, PairedPattern, PcPattern, Monomorphic, TagFor, ClassesOf, Dominant, SizesIn;
    CompiledFrom(cfg, actions, a, k);
    var s := Act(cfg, Run(cfg, [], actions), a)[k];
    var w := LastOf(Sizes(HistoryOf(cfg, [], actions + [a], s.id)), cfg.window);
    ClassesSeen(s, w);
    if Request(Generic, s).strategy == MultiSizeFreeList {
      assert Request(Generic, s).classSizes == SizesIn(ClassesOf(s));
    }
  }

  /** An override is obeyed, for the most frequent size. */
  lemma ForcedChosen(cfg: Config, actions: seq<Action>, a: Action, k: nat, forced: Strategy)
    requires Sane(cfg) && Compiles(cfg, Run(cfg, [], actions), a, k)
    requires forced in {BumpAlloc, ThreadLocalFreeList, EpochArena}
    ensures var s := Act(cfg, Run(cfg, [], actions), a)[k];
            var w := LastOf(Sizes(HistoryOf(cfg, [], actions + [a], s.id)), cfg.window);
            Counting(s.now.hist) && var spec := Request(forced, s); spec.strategy == forced && Leading(w, [spec.size])
  {
    hide Run, Act, HistoryOf, Fold, Matched, HistOf, Counting, AllocTids, FreeTids, Freers, DistOf,
         Sizes, LastOf, Leading, PairedPattern, PcPattern, Monomorphic, TagFor, ClassesOf, Dominant;
    CompiledFrom(cfg, actions, a, k);
    var s := Act(cfg, Run(cfg, [], actions), a)[k];
    DominantSeen(s, LastOf(Sizes(HistoryOf(cfg, [], actions + [a], s.id)), cfg.window));
  }

  // ----- a trace of one site in stack order -----

  /** The trace is of one site's chunks, freed by site f in stack order and before 16 more are live; stack is
      the last 16 live before it. */
  predicate InOrder(actions: seq<Action>, id: Id, f: Id, stack: seq<Ptr>)
    decreases |actions|
  {
    if actions == [] then true
    else
      match actions[0]
      case Observe(Alloc(site, size, ptr, tid)) =>
        site == id && 0 < size < 4096 && ptr != 0 && InOrder(actions[1..], id, f, LastOf(stack + [ptr], 16))
      case Observe(Free(site, ptr, tid, Unmanaged)) =>
        site == f && ptr != 0 && stack != [] && ptr == stack[|stack| - 1] &&
        InOrder(actions[1..], id, f, stack[..|stack| - 1])
      case _ => false
  }

  function Allocs(actions: seq<Action>): nat {
    if actions == [] then 0 else (if actions[0].Observe? && actions[0].ev.Alloc? then 1 else 0) + Allocs(actions[1..])
  }

  function Frees(actions: seq<Action>): nat {
    if actions == [] then 0 else (if actions[0].Observe? && actions[0].ev.Free? then 1 else 0) + Frees(actions[1..])
  }

  /** The only summary is the site's, and its stack holds what is live. */
  ghost predicate Follows(sites: seq<Site>, id: Id, stack: seq<Ptr>) {
    if sites == [] then stack == [] else |sites| == 1 && sites[0].id == id && sites[0].stack == stack
  }

  lemma AllocFollows(cfg: Config, sites: seq<Site>, a: Action, id: Id, stack: seq<Ptr>)
    requires Follows(sites, id, stack) && |stack| <= 16
    requires a.Observe? && a.ev.Alloc? && a.ev.site == id && 0 < a.ev.size < 4096 && a.ev.ptr != 0
    ensures OwnOf(sites, a, id) == [Alloced(a.ev.size, a.ev.tid, a.ev.ptr)]
    ensures Act(cfg, sites, a) != [] && Follows(Act(cfg, sites, a), id, LastOf(stack + [a.ev.ptr], 16))
    ensures |LastOf(stack + [a.ev.ptr], 16)| <= 16
  {
    hide Allocated, Seen;
    OneSite(cfg, sites, a, id);
    var s := if sites == [] then Fresh(id) else sites[0];
    AllocatedAlike(cfg, s, a.ev.size, a.ev.tid, a.ev.ptr);
  }

  lemma FreeFollows(cfg: Config, sites: seq<Site>, a: Action, id: Id, stack: seq<Ptr>)
    requires Follows(sites, id, stack) && stack != []
    requires a.Observe? && a.ev.Free? && a.ev.owner.Unmanaged? && a.ev.ptr == stack[|stack| - 1] != 0
    ensures OwnOf(sites, a, id) == [FreedBy(a.ev.site, a.ev.tid, a.ev.ptr, false)]
    ensures Act(cfg, sites, a) != [] && Follows(Act(cfg, sites, a), id, stack[..|stack| - 1])
  {
    hide Seen, Voted;
    assert OnTop(sites[0], a.ev.ptr) && FindTop(sites, a.ev.ptr) == 0;
  }

  lemma {:induction false} TallyConcat(o: Own, h: seq<Own>)
    ensures Freers([o] + h) == Freers([o]) + Freers(h) && |AllocTids([o] + h)| == |AllocTids([o])| + |AllocTids(h)|
    decreases |h|
  {
    if h == [] {
      assert [o] + h == [o];
    } else {
      assert ([o] + h)[..|h|] == [o] + h[..|h| - 1];
      TallyConcat(o, h[..|h| - 1]);
    }
  }

  lemma {:induction false} AllTimes(q: seq<nat>, f: nat)
    requires forall x :: x in q ==> x == f
    ensures Times(q, f) == |q|
  {
    if q != [] {
      var r := q[..|q| - 1];
      forall x | x in r
        ensures x == f
      {
        assert x in q;
      }
      assert q[|q| - 1] in q;
      AllTimes(r, f);
    }
  }

  lemma OneTally(o: Own)
    ensures Freers([o]) == (if o.FreedBy? && !o.managed then [o.site as nat] else [])
    ensures |AllocTids([o])| == if o.Alloced? then 1 else 0
    ensures Freers([]) == [] && AllocTids([]) == []
  {
    assert [o][..0] == [];
  }

  lemma Alone(sites: seq<Site>, id: Id, stack: seq<Ptr>)
    requires Follows(sites, id, stack)
    ensures sites != [] ==> |sites| == 1 && sites[0].id == id
  {
  }

  /** Then every free is attributed to the site: the stack of the last 16 allocations finds it. */
  lemma {:induction false} InOrderHistory(cfg: Config, sites: seq<Site>, actions: seq<Action>, id: Id, f: Id, stack: seq<Ptr>)
    requires Follows(sites, id, stack) && |stack| <= 16 && InOrder(actions, id, f, stack)
    ensures var h := HistoryOf(cfg, sites, actions, id);
            (forall x :: x in Freers(h) ==> x == f) && |Freers(h)| == Frees(actions) && |AllocTids(h)| == Allocs(actions)
    ensures actions != [] || sites != [] ==> |Run(cfg, sites, actions)| == 1 && Run(cfg, sites, actions)[0].id == id
    decreases |actions|
  {
    hide Act, OwnOf, FindTop, FindSite, Freers, AllocTids, Follows, LastOf;
    OneTally(ResetBy(Other));
    if actions == [] {
      Alone(sites, id, stack);
    } else {
      var a, o, n := actions[0], OwnOf(sites, actions[0], id), Act(cfg, sites, actions[0]);
      if a.ev.Alloc? {
        AllocFollows(cfg, sites, a, id, stack);
        InOrderHistory(cfg, n, actions[1..], id, f, LastOf(stack + [a.ev.ptr], 16));
      } else {
        FreeFollows(cfg, sites, a, id, stack);
        InOrderHistory(cfg, n, actions[1..], id, f, stack[..|stack| - 1]);
      }
      OneTally(o[0]);
      TallyConcat(o[0], HistoryOf(cfg, n, actions[1..], id));
      assert o == [o[0]];
    }
  }

  /** Such a trace, with at least 95 frees to 100 allocations when it compiles, is compiled as a paired stack. */
  lemma PairedTraceChosen(cfg: Config, actions: seq<Action>, a: Action, k: nat, id: Id, f: Id)
    requires Sane(cfg) && Compiles(cfg, Run(cfg, [], actions), a, k)
    requires InOrder(actions + [a], id, f, []) && 100 * Frees(actions + [a]) >= 95 * Allocs(actions + [a])
    ensures var s := Act(cfg, Run(cfg, [], actions), a)[k];
            s.id == id && Counting(s.now.hist) && Request(Generic, s).strategy == PairedStack
  {
    hide Run, Act, HistoryOf, Counting, AllocTids, Freers, PairedPattern, Request, InOrder, Allocs, Frees;
    InOrderHistory(cfg, [], actions + [a], id, f, []);
    RunThen(cfg, [], actions, a);
    AllTimes(Freers(HistoryOf(cfg, [], actions + [a], id)), f);
    PairedStackChosen(cfg, actions, a, k, f);
  }
}
