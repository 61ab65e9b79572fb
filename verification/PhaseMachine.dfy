/** What entering Compiled requires, over every sequence of events and resets. */
module PhaseMachine {
  import opened Histogram
  import opened KsTest
  import opened ThreadDist
  import opened Analyzer

  /** The last k windows were each indistinguishable from the one before. */
  ghost predicate Converging(cfg: Config, past: seq<seq<nat>>, k: nat) {
    k == 0 || (k < |past| && forall i :: |past| - k <= i < |past| ==>
      Stable(HistOf(past[i]), HistOf(past[i - 1]), cfg.alpha))
  }

  ghost predicate SiteOk(cfg: Config, s: Site) {
    (forall i :: 0 <= i < |s.past| ==> |s.past[i]| == cfg.window) &&
    (s.blacklisted ==> !s.phase.Compiled?) && (s.blacklisted <==> s.deopts >= cfg.limit) &&
    (s.firstCompile != 0 ==> s.firstCompile >= (cfg.bar + 1) * cfg.window) &&
    match s.phase
    case PreSpec =>
      s.now == Window(HistOf(s.cur), |s.cur|) && |s.cur| < cfg.window &&
      s.before == (if s.past == [] then CLEAR else Window(HistOf(s.past[|s.past| - 1]), cfg.window)) &&
      s.stable < cfg.bar && Converging(cfg, s.past, s.stable) && s.events >= |s.past| * cfg.window + |s.cur|
    case Compiled =>
      s.stable == cfg.bar && Converging(cfg, s.past, cfg.bar) &&
      s.past != [] && s.baseline == HistOf(s.past[|s.past| - 1])
    case Deopt => s.now == CLEAR && s.before == CLEAR && s.stable == 0
  }

  lemma FreshOk(cfg: Config, id: Id)
    requires Sane(cfg)
    ensures SiteOk(cfg, Fresh(id))
  {
  }

  lemma Extends(cfg: Config, past: seq<seq<nat>>, k: nat, cur: seq<nat>)
    requires Converging(cfg, past, k) && past != []
    requires Stable(HistOf(cur), HistOf(past[|past| - 1]), cfg.alpha)
    ensures Converging(cfg, past + [cur], k + 1)
  {
    hide Stable, HistOf;
  }

  /** A site whose current window has just become full. */
  ghost predicate FullOk(cfg: Config, s: Site) {
    (forall i :: 0 <= i < |s.past| ==> |s.past[i]| == cfg.window) && s.phase.PreSpec? &&
    (s.blacklisted <==> s.deopts >= cfg.limit) &&
    (s.firstCompile != 0 ==> s.firstCompile >= (cfg.bar + 1) * cfg.window) &&
    s.now == Window(HistOf(s.cur), |s.cur|) && |s.cur| == cfg.window &&
    s.before == (if s.past == [] then CLEAR else Window(HistOf(s.past[|s.past| - 1]), cfg.window)) &&
    s.stable < cfg.bar && Converging(cfg, s.past, s.stable) && s.events >= |s.past| * cfg.window + cfg.window
  }

  lemma AdvancedOk(cfg: Config, s: Site)
    requires Sane(cfg) && FullOk(cfg, s)
    ensures SiteOk(cfg, Advanced(cfg, s))
  {
    hide Stable, HistOf;
    assert (|s.past| + 1) * cfg.window == |s.past| * cfg.window + cfg.window;
    NothingRecorded();
    var p := s.past + [s.cur];
    assert p[|p| - 1] == s.cur;
    if s.before.count > 0 && Stable(s.now.hist, s.before.hist, cfg.alpha) {
      Extends(cfg, s.past, s.stable, s.cur);
      if s.stable + 1 == cfg.bar {
        Enough(cfg, |s.past| + 1);
      }
    }
  }

  lemma NothingRecorded()
    ensures HistOf([]) == EMPTY
  {
  }

  lemma Enough(cfg: Config, n: nat)
    ensures n >= cfg.bar + 1 ==> n * cfg.window >= (cfg.bar + 1) * cfg.window
  {
  }

  lemma AllocatedOk(cfg: Config, s: Site, size: nat, tid: nat, p: Ptr)
    requires Sane(cfg) && SiteOk(cfg, s)
    ensures SiteOk(cfg, Allocated(cfg, s, size, tid, p))
  {
    hide Stable, HistOf, Recorded, Advanced, Seen, Pushed, Converging;
    var e := Entered(Counted(s, tid, p));
    NothingRecorded();
    assert Converging(cfg, [], 0) by { NoneConverging(cfg); }
    if e.phase.PreSpec? {
      var r := e.(now := Filled(e.now, size), cur := e.cur + [size]);
      OneMore(e.cur, size);
      if r.now.count >= cfg.window {
        AdvancedOk(cfg, r);
      }
    }
  }

  lemma NoneConverging(cfg: Config)
    ensures Converging(cfg, [], 0)
  {
  }

  lemma OneMore(cur: seq<nat>, size: nat)
    ensures HistOf(cur + [size]) == Recorded(HistOf(cur), size)
  {
    assert (cur + [size])[..|cur|] == cur;
  }

  lemma FreedOk(cfg: Config, s: Site, freeSite: Id, tid: nat, p: Ptr, managed: bool)
    requires SiteOk(cfg, s)
    ensures SiteOk(cfg, Freed(s, freeSite, tid, p, managed))
  {
    hide Stable, HistOf, Seen, Voted, Converging;
  }

  lemma ResetOk(cfg: Config, s: Site, reason: Reason)
    requires SiteOk(cfg, s)
    ensures SiteOk(cfg, Reset(cfg, s, reason))
  {
    hide Stable, HistOf, Converging;
  }

  // ----- runs -----

  datatype Action = Observe(ev: Event) | Retire(site: Id, reason: Reason)

  function Act(cfg: Config, sites: seq<Site>, a: Action): seq<Site> {
    match a
    case Observe(ev) => Processed(cfg, sites, ev)
    case Retire(site, reason) =>
      var k := FindSite(sites, site);
      if k == |sites| then sites else sites[k := Reset(cfg, sites[k], reason)]
  }

  function Run(cfg: Config, sites: seq<Site>, actions: seq<Action>): seq<Site>
    decreases |actions|
  {
    if actions == [] then sites else Run(cfg, Act(cfg, sites, actions[0]), actions[1..])
  }

  ghost predicate AllOk(cfg: Config, sites: seq<Site>) { forall i :: 0 <= i < |sites| ==> SiteOk(cfg, sites[i]) }

  lemma ActOk(cfg: Config, sites: seq<Site>, a: Action)
    requires Sane(cfg) && AllOk(cfg, sites)
    ensures AllOk(cfg, Act(cfg, sites, a))
  {
    hide SiteOk, Allocated, Freed, Reset;
    match a
    case Observe(Alloc(site, size, ptr, tid)) =>
      FreshOk(cfg, site);
      var t := Ensured(sites, site);
      var k := FindSite(t, site);
      if k < |t| {
        AllocatedOk(cfg, t[k], size, tid, ptr);
      }
    case Observe(Free(site, ptr, tid, Managed(owner))) =>
      FreshOk(cfg, owner);
      var t := Ensured(sites, owner);
      var k := FindSite(t, owner);
      if k < |t| {
        FreedOk(cfg, t[k], site, tid, ptr, true);
      }
    case Observe(Free(site, ptr, tid, Unmanaged)) =>
      var k := FindTop(sites, ptr);
      if k < |sites| {
        FreedOk(cfg, sites[k], site, tid, ptr, false);
      }
    case Retire(site, reason) =>
      var k := FindSite(sites, site);
      if k < |sites| {
        ResetOk(cfg, sites[k], reason);
      }
  }

  lemma {:induction false} RunOk(cfg: Config, sites: seq<Site>, actions: seq<Action>)
    requires Sane(cfg) && AllOk(cfg, sites)
    ensures AllOk(cfg, Run(cfg, sites, actions))
    decreases |actions|
  {
    hide AllOk, Act;
    if actions != [] {
      ActOk(cfg, sites, actions[0]);
      RunOk(cfg, Act(cfg, sites, actions[0]), actions[1..]);
    }
  }

  /** A compiled site saw, since it last entered PreSpec, at least bar + 1 full windows of allocation
      events, of which every pair in a row among the last bar + 1 was indistinguishable and none had
      overflowed; it is not blacklisted, and what it is checked against is the last of them. */
  lemma CompiledMeans(cfg: Config, actions: seq<Action>, k: nat)
    requires Sane(cfg) && k < |Run(cfg, [], actions)| && Run(cfg, [], actions)[k].phase.Compiled?
    ensures var s := Run(cfg, [], actions)[k];
            |s.past| >= cfg.bar + 1 && (forall i :: 0 <= i < |s.past| ==> |s.past[i]| == cfg.window) &&
            Converging(cfg, s.past, cfg.bar) &&
            (forall i :: |s.past| - cfg.bar - 1 <= i < |s.past| ==> !HistOf(s.past[i]).overflow) &&
            s.baseline == HistOf(s.past[|s.past| - 1]) && !s.blacklisted
  {
    hide Run, MaxGap, HistOf;
    RunOk(cfg, [], actions);
    var s := Run(cfg, [], actions)[k];
    assert SiteOk(cfg, s);
    forall i | |s.past| - cfg.bar - 1 <= i < |s.past|
      ensures !HistOf(s.past[i]).overflow
    {
      var j := if i == |s.past| - 1 then i else i + 1;
      assert Stable(HistOf(s.past[j]), HistOf(s.past[j - 1]), cfg.alpha);
    }
  }

  /** No site is ever recorded as compiled before it had (bar + 1) * window events. */
  lemma FirstCompileBound(cfg: Config, actions: seq<Action>, k: nat)
    requires Sane(cfg) && k < |Run(cfg, [], actions)| && Run(cfg, [], actions)[k].firstCompile != 0
    ensures Run(cfg, [], actions)[k].firstCompile >= (cfg.bar + 1) * cfg.window
  {
    hide Run, Stable, HistOf, Converging;
    RunOk(cfg, [], actions);
    assert SiteOk(cfg, Run(cfg, [], actions)[k]);
  }

  /** Once blacklisted, out of Compiled for good. */
  lemma {:induction false} BlacklistedForever(cfg: Config, sites: seq<Site>, actions: seq<Action>, k: nat)
    requires Sane(cfg) && AllOk(cfg, sites) && k < |sites| && sites[k].blacklisted
    ensures var after := Run(cfg, sites, actions);
            k < |after| && after[k].blacklisted && !after[k].phase.Compiled? && after[k].id == sites[k].id
    decreases |actions|
  {
    hide AllOk, SiteOk, Act;
    if actions == [] {
      NotCompiled(cfg, sites, k);
    } else {
      ActOk(cfg, sites, actions[0]);
      StaysListed(cfg, sites, actions[0], k);
      BlacklistedForever(cfg, Act(cfg, sites, actions[0]), actions[1..], k);
    }
  }

  lemma NotCompiled(cfg: Config, sites: seq<Site>, k: nat)
    requires AllOk(cfg, sites) && k < |sites| && sites[k].blacklisted
    ensures !sites[k].phase.Compiled?
  {
    assert SiteOk(cfg, sites[k]);
  }

  lemma StaysListed(cfg: Config, sites: seq<Site>, a: Action, k: nat)
    requires k < |sites| && sites[k].blacklisted
    ensures var after := Act(cfg, sites, a);
            k < |after| && after[k].blacklisted && after[k].id == sites[k].id
  {
    hide Allocated, Freed, FindSite, FindTop;
    if a.Observe? {
      EventsKeepListing(cfg, sites[k], if a.ev.Alloc? then a.ev.size else 0, a.ev.tid, a.ev.ptr);
    }
  }

  lemma EventsKeepListing(cfg: Config, s: Site, size: nat, tid: nat, p: Ptr)
    ensures Allocated(cfg, s, size, tid, p).blacklisted == s.blacklisted && Allocated(cfg, s, size, tid, p).id == s.id
    ensures forall site, t, q, managed :: Freed(s, site, t, q, managed).blacklisted == s.blacklisted &&
                                          Freed(s, site, t, q, managed).id == s.id
  {
    hide Stable, Recorded, Seen, Pushed, Voted;
  }

  /** A site is blacklisted exactly when it was reset as often as the limit. */
  lemma BlacklistedExactly(cfg: Config, actions: seq<Action>, k: nat)
    requires Sane(cfg) && k < |Run(cfg, [], actions)|
    ensures var s := Run(cfg, [], actions)[k]; s.blacklisted <==> s.deopts >= cfg.limit
  {
    hide Run, Stable, HistOf, Converging;
    RunOk(cfg, [], actions);
    assert SiteOk(cfg, Run(cfg, [], actions)[k]);
  }

  // ----- how soon a site compiles -----

  function Repeat(w: seq<nat>, n: nat): seq<nat> { if n == 0 then [] else w + Repeat(w, n - 1) }

  /** The actions are allocations at the site, of the given sizes, by any threads. */
  ghost predicate Feeds(actions: seq<Action>, id: Id, sizes: seq<nat>) {
    |actions| == |sizes| && forall i :: 0 <= i < |actions| ==>
      actions[i].Observe? && actions[i].ev.Alloc? && actions[i].ev.site == id && actions[i].ev.size == sizes[i]
  }

  /** A window of sizes that are recorded and fit the histogram. */
  ghost predicate Usable(cfg: Config, w: seq<nat>) {
    |w| == cfg.window && (forall x :: x in w ==> 0 < x < MAX_SIZE) && !HistOf(w).overflow
  }

  /** The site has seen q windows w and r events of the next, all of them allocations. */
  ghost predicate Learning(cfg: Config, s: Site, id: Id, w: seq<nat>, q: nat, r: nat) {
    q <= cfg.bar && r < |w| && s.id == id && s.phase.PreSpec? && !s.blacklisted && s.events == q * cfg.window + r &&
    s.frees == 0 && s.freed == NONE && s.pair == Pair(0, 0, 0) && s.firstCompile == 0 &&
    s.now == Window(HistOf(w[..r]), r) && s.before == (if q == 0 then CLEAR else Window(HistOf(w), |w|)) &&
    s.stable == if q == 0 then 0 else q - 1
  }

  /** The site has compiled with bar + 1 windows w. */
  ghost predicate Learnt(cfg: Config, s: Site, id: Id, w: seq<nat>) {
    s.id == id && s.phase.Compiled? && s.firstCompile == s.events == (cfg.bar + 1) * cfg.window &&
    s.frees == 0 && s.freed == NONE && s.pair == Pair(0, 0, 0) && s.now == Window(HistOf(w), |w|)
  }

  lemma {:induction false} AllRecorded(w: seq<nat>)
    requires forall x :: x in w ==> x < MAX_SIZE
    ensures HistOf(w).total == |w|
  {
    if w != [] {
      var r := w[..|w| - 1];
      assert forall x :: x in r ==> x in w;
      AllRecorded(r);
      assert w[|w| - 1] in w;
    }
  }

  lemma SameWindow(cfg: Config, w: seq<nat>)
    requires Sane(cfg) && Usable(cfg, w)
    ensures Stable(HistOf(w), HistOf(w), cfg.alpha)
  {
    hide HistOf, Stable;
    AllRecorded(w);
    StableReflexive(HistOf(w), cfg.alpha);
  }

  lemma Learns(cfg: Config, s: Site, id: Id, w: seq<nat>, q: nat, r: nat, tid: nat, p: Ptr)
    requires Sane(cfg) && !cfg.traceOnly && Usable(cfg, w) && Learning(cfg, s, id, w, q, r)
    ensures var n := Allocated(cfg, s, w[r], tid, p);
            if r + 1 < |w| then Learning(cfg, n, id, w, q, r + 1)
            else if q < cfg.bar then Learning(cfg, n, id, w, q + 1, 0)
            else Learnt(cfg, n, id, w)
  {
    hide Stable, HistOf, Recorded, Seen, Pushed;
    assert w[..r + 1] == w[..r] + [w[r]];
    OneMore(w[..r], w[r]);
    assert (q + 1) * cfg.window == q * cfg.window + cfg.window;
    if r + 1 == |w| {
      assert w[..r + 1] == w;
      assert w[..0] == [];
      NothingRecorded();
      SameWindow(cfg, w);
    }
  }

  lemma OneSite(cfg: Config, sites: seq<Site>, a: Action, id: Id)
    requires a.Observe? && a.ev.Alloc? && a.ev.site == id && 0 < a.ev.size < MAX_SIZE
    requires sites == [] || (|sites| == 1 && sites[0].id == id)
    ensures Act(cfg, sites, a) ==
            [Allocated(cfg, if sites == [] then Fresh(id) else sites[0], a.ev.size, a.ev.tid, a.ev.ptr)]
  {
    hide Allocated;
    var t := Ensured(sites, id);
    assert t == [if sites == [] then Fresh(id) else sites[0]];
    assert FindSite(t, id) == 0;
  }

  lemma {:induction false} Feeding(cfg: Config, sites: seq<Site>, id: Id, w: seq<nat>, q: nat, r: nat,
                                   actions: seq<Action>)
    requires Sane(cfg) && !cfg.traceOnly && Usable(cfg, w) && q <= cfg.bar && r < |w|
    requires (sites == [] && q == 0 && r == 0) || (|sites| == 1 && Learning(cfg, sites[0], id, w, q, r))
    requires Feeds(actions, id, w[r..] + Repeat(w, cfg.bar - q))
    ensures |Run(cfg, sites, actions)| == 1 && Learnt(cfg, Run(cfg, sites, actions)[0], id, w)
    decreases |actions|
  {
    hide Allocated, Learning, Learnt, Act, HistOf;
    var sizes := w[r..] + Repeat(w, cfg.bar - q);
    var a, rest := actions[0], actions[1..];
    var s := if sites == [] then Fresh(id) else sites[0];
    assert Learning(cfg, s, id, w, q, r) by {
      if sites == [] { FirstLearns(cfg, id, w); }
    }
    LearningId(cfg, s, id, w, q, r);
    assert sizes[0] == w[r] && w[r] in w;
    OneSite(cfg, sites, a, id);
    Learns(cfg, s, id, w, q, r, a.ev.tid, a.ev.ptr);
    var n := Act(cfg, sites, a);
    if r + 1 < |w| {
      assert sizes[1..] == w[r + 1..] + Repeat(w, cfg.bar - q);
      Feeding(cfg, n, id, w, q, r + 1, rest);
    } else if q < cfg.bar {
      assert sizes[1..] == w[0..] + Repeat(w, cfg.bar - (q + 1));
      Feeding(cfg, n, id, w, q + 1, 0, rest);
    } else {
      assert rest == [];
    }
  }

  lemma FirstLearns(cfg: Config, id: Id, w: seq<nat>)
    requires |w| > 0
    ensures Learning(cfg, Fresh(id), id, w, 0, 0)
  {
    assert w[..0] == [];
    NothingRecorded();
  }

  lemma LearningId(cfg: Config, s: Site, id: Id, w: seq<nat>, q: nat, r: nat)
    requires Learning(cfg, s, id, w, q, r)
    ensures s.id == id
  {
  }

  /** A site that allocates the same window over and over is compiled by event (bar + 1) * window: the
      bound of FirstCompileBound is met. */
  lemma RepeatedWindowCompiles(cfg: Config, id: Id, w: seq<nat>, actions: seq<Action>)
    requires Sane(cfg) && !cfg.traceOnly && Usable(cfg, w) && Feeds(actions, id, Repeat(w, cfg.bar + 1))
    ensures |Run(cfg, [], actions)| == 1 && Learnt(cfg, Run(cfg, [], actions)[0], id, w)
  {
    hide Run, Learnt, HistOf;
    assert w[0..] == w;
    Feeding(cfg, [], id, w, 0, 0, actions);
  }
}
