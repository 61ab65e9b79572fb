/** When exactly a learning site compiles: at the end of a window, over its own history in any run. */
module Convergence {
  import opened Histogram
  import opened KsTest
  import opened ThreadDist
  import opened Analyzer
  import opened PhaseMachine
  import opened History

  // ----- the windows are those of the history -----

  function Flat(past: seq<seq<nat>>): seq<nat> {
    if past == [] then [] else Flat(past[..|past| - 1]) + past[|past| - 1]
  }

  ghost predicate EndsWith(q: seq<nat>, w: seq<nat>) { |w| <= |q| && w == q[|q| - |w|..] }

  lemma EndsMore(q: seq<nat>, w: seq<nat>, x: nat)
    requires EndsWith(q, w)
    ensures EndsWith(q + [x], w + [x]) && EndsWith(q, []) && EndsWith(q + [x], [x])
  {
    assert (q + [x])[|q| - |w|..] == q[|q| - |w|..] + [x];
  }

  lemma AllocFields(cfg: Config, s: Site, o: Own)
    requires o.Alloced? && One(cfg, s, o).phase.PreSpec?
    ensures var n := One(cfg, s, o);
            var past, cur := if s.phase.PreSpec? then s.past else [], if s.phase.PreSpec? then s.cur else [];
            (n.past == past && n.cur == cur + [o.size]) || (n.past == past + [cur + [o.size]] && n.cur == [])
  {
    hide Stable, Recorded, Seen, Pushed;
    assert [] + [o.size] == [o.size];
  }

  lemma FlatMore(past: seq<seq<nat>>, w: seq<nat>)
    ensures Flat(past + [w]) == Flat(past) + w && Flat([]) == []
  {
    assert (past + [w])[..|past|] == past;
  }

  lemma AllocWindows(cfg: Config, s: Site, o: Own)
    requires o.Alloced? && One(cfg, s, o).phase.PreSpec?
    ensures var n := One(cfg, s, o);
            Flat(n.past) + n.cur == if s.phase.PreSpec? then Flat(s.past) + (s.cur + [o.size]) else [o.size]
  {
    hide One, Flat;
    AllocFields(cfg, s, o);
    FlatMore(if s.phase.PreSpec? then s.past else [], (if s.phase.PreSpec? then s.cur else []) + [o.size]);
    assert [] + [o.size] == [o.size];
  }

  /** While a site learns, its windows one after the other are the end of its allocations. */
  lemma {:induction false} WindowsEnd(cfg: Config, id: Id, h: seq<Own>)
    ensures var s := Fold(cfg, Fresh(id), h); s.phase.PreSpec? ==> EndsWith(Sizes(h), Flat(s.past) + s.cur)
  {
    hide One, EndsWith, Flat;
    if h == [] {
      NoWindows();
    } else {
      var r, o := h[..|h| - 1], h[|h| - 1];
      var s := Fold(cfg, Fresh(id), r);
      WindowsEnd(cfg, id, r);
      if One(cfg, s, o).phase.PreSpec? {
        if o.Alloced? {
          AllocWindows(cfg, s, o);
          EndsMore(Sizes(r), if s.phase.PreSpec? then Flat(s.past) + s.cur else [], o.size) by { EndsNone(Sizes(r)); }
          assert Flat(s.past) + (s.cur + [o.size]) == (Flat(s.past) + s.cur) + [o.size];
        } else {
          OthersKeep(cfg, s, o);
          assert Sizes(h) == Sizes(r);
        }
      }
    }
  }

  lemma NoWindows()
    ensures EndsWith([], Flat([]) + [])
  {
  }

  lemma EndsNone(q: seq<nat>)
    ensures EndsWith(q, [])
  {
  }

  lemma OthersKeep(cfg: Config, s: Site, o: Own)
    requires !o.Alloced? && One(cfg, s, o).phase.PreSpec?
    ensures var n := One(cfg, s, o);
            s.phase.PreSpec? && n.past == s.past && n.cur == s.cur && n.stable == s.stable && n.blacklisted == s.blacklisted
  {
    hide Seen, Voted;
  }

  // ----- the count of stable windows is the longest run of them -----

  /** A site that may still compile counts every stable window back to the last that was not. */
  ghost predicate Counted(cfg: Config, s: Site) {
    s.phase.PreSpec? && !s.blacklisted && !cfg.traceOnly ==> !Converging(cfg, s.past, s.stable + 1)
  }

  lemma Shorter(cfg: Config, past: seq<seq<nat>>, w: seq<nat>, k: nat)
    requires Converging(cfg, past + [w], k + 1)
    ensures Converging(cfg, past, k) && past != [] && Stable(HistOf(w), HistOf(past[|past| - 1]), cfg.alpha)
    ensures forall j :: 0 <= j <= k ==> Converging(cfg, past, j)
  {
    hide Stable, HistOf;
    var p := past + [w];
    assert Stable(HistOf(p[|p| - 1]), HistOf(p[|p| - 2]), cfg.alpha);
    forall i | |past| - k <= i < |past|
      ensures Stable(HistOf(past[i]), HistOf(past[i - 1]), cfg.alpha)
    {
      assert Stable(HistOf(p[i]), HistOf(p[i - 1]), cfg.alpha);
    }
  }

  lemma AdvancedCounts(cfg: Config, s: Site)
    requires Sane(cfg) && FullOk(cfg, s) && Counted(cfg, s)
    ensures Counted(cfg, Advanced(cfg, s))
    ensures Advanced(cfg, s).phase.Compiled? <==>
            !s.blacklisted && !cfg.traceOnly && Converging(cfg, s.past + [s.cur], cfg.bar)
  {
    hide Stable, HistOf, Converging;
    var stays := s.before.count > 0 && Stable(s.now.hist, s.before.hist, cfg.alpha);
    var p := s.past + [s.cur];
    if stays {
      Extends(cfg, s.past, s.stable, s.cur);
    }
    if Converging(cfg, p, 1) {
      Shorter(cfg, s.past, s.cur, 0);
    }
    if Converging(cfg, p, s.stable + 2) {
      Shorter(cfg, s.past, s.cur, s.stable + 1);
    }
    if Converging(cfg, p, cfg.bar) {
      Shorter(cfg, s.past, s.cur, cfg.bar - 1);
    }
  }

  /** The summary a window's last event is advanced from. */
  lemma FullAgain(cfg: Config, s: Site, o: Own)
    requires Sane(cfg) && SiteOk(cfg, s) && o.Alloced? && s.phase.PreSpec? && |s.cur| + 1 == cfg.window
    ensures var r := s.(events := s.events + 1, allocs := Seen(s.allocs, o.tid), stack := Pushed(s.stack, o.ptr),
                        now := Filled(s.now, o.size), cur := s.cur + [o.size]);
            FullOk(cfg, r) && One(cfg, s, o) == Advanced(cfg, r)
  {
    hide Stable, HistOf, Recorded, Seen, Pushed, Converging, Advanced;
    OneMore(s.cur, o.size);
  }

  // ----- over histories -----

  lemma OneOk(cfg: Config, s: Site, o: Own)
    requires Sane(cfg) && SiteOk(cfg, s)
    ensures SiteOk(cfg, One(cfg, s, o))
  {
    hide SiteOk, Allocated, Freed, Reset;
    match o
    case Alloced(size, tid, ptr) => AllocatedOk(cfg, s, size, tid, ptr);
    case FreedBy(site, tid, ptr, managed) => FreedOk(cfg, s, site, tid, ptr, managed);
    case ResetBy(reason) => ResetOk(cfg, s, reason);
  }

  /** Within a window nothing is decided. */
  lemma MidWindow(cfg: Config, s: Site, o: Own)
    requires Sane(cfg) && o.Alloced? && s.phase.PreSpec? && s.now.count + 1 < cfg.window
    ensures var n := One(cfg, s, o);
            n.phase.PreSpec? && n.past == s.past && n.stable == s.stable && n.blacklisted == s.blacklisted
  {
    hide Stable, Recorded, Seen, Pushed;
  }

  /** A site back from Deopt starts over; one compiled does not come to learn by an event. */
  lemma Enters(cfg: Config, s: Site, o: Own)
    requires Sane(cfg) && SiteOk(cfg, s) && o.Alloced? && !s.phase.PreSpec? && One(cfg, s, o).phase.PreSpec?
    ensures var n := One(cfg, s, o); n.stable == 0 && |n.past| <= 1
  {
    hide Stable, HistOf, Recorded, Seen, Pushed, Converging;
  }

  lemma TooFew(cfg: Config, past: seq<seq<nat>>)
    requires |past| <= 1
    ensures !Converging(cfg, past, 1)
  {
  }

  lemma OneCounts(cfg: Config, s: Site, o: Own)
    requires Sane(cfg) && SiteOk(cfg, s) && Counted(cfg, s)
    ensures Counted(cfg, One(cfg, s, o))
  {
    hide One, Converging, Advanced, HistOf;
    var n := One(cfg, s, o);
    if n.phase.PreSpec? {
      if !o.Alloced? {
        OthersKeep(cfg, s, o);
      } else if !s.phase.PreSpec? {
        Enters(cfg, s, o);
        TooFew(cfg, n.past);
      } else if s.now.count + 1 < cfg.window {
        MidWindow(cfg, s, o);
      } else {
        FullAgain(cfg, s, o);
        AdvancedCounts(cfg, s.(events := s.events + 1, allocs := Seen(s.allocs, o.tid), stack := Pushed(s.stack, o.ptr),
                               now := Filled(s.now, o.size), cur := s.cur + [o.size]));
      }
    }
  }

  lemma {:induction false} FoldCounts(cfg: Config, id: Id, h: seq<Own>)
    requires Sane(cfg)
    ensures SiteOk(cfg, Fold(cfg, Fresh(id), h)) && Counted(cfg, Fold(cfg, Fresh(id), h))
  {
    hide SiteOk, Counted, One, Fresh;
    if h == [] {
      FreshOk(cfg, id);
      FreshCounts(cfg, id);
    } else {
      var r, o := h[..|h| - 1], h[|h| - 1];
      FoldCounts(cfg, id, r);
      OneOk(cfg, Fold(cfg, Fresh(id), r), o);
      OneCounts(cfg, Fold(cfg, Fresh(id), r), o);
    }
  }

  lemma FreshCounts(cfg: Config, id: Id)
    ensures Counted(cfg, Fresh(id))
  {
    TooFew(cfg, []);
  }

  // ----- over runs -----

  /** The event that fills a window compiles the site if and only if each of its last bar windows, this one the
      last, is indistinguishable from the one before, the site is not blacklisted and the mode not trace-only;
      the windows are, one after the other, the end of the site's allocations. */
  lemma CompilesExactly(cfg: Config, actions: seq<Action>, a: Action, k: nat)
    requires Sane(cfg) && k < |Run(cfg, [], actions)| && Run(cfg, [], actions)[k].phase.PreSpec?
    requires a.Observe? && a.ev.Alloc? && a.ev.site == Run(cfg, [], actions)[k].id && 0 < a.ev.size < MAX_SIZE
    requires |Run(cfg, [], actions)[k].cur| + 1 == cfg.window
    ensures var before := Run(cfg, [], actions);
            var s, after := before[k], Act(cfg, before, a);
            k < |after| && EndsWith(Sizes(HistoryOf(cfg, [], actions, s.id)), Flat(s.past) + s.cur) &&
            (after[k].phase.Compiled? <==>
              !s.blacklisted && !cfg.traceOnly && Converging(cfg, s.past + [s.cur + [a.ev.size]], cfg.bar))
  {
    hide Run, HistoryOf, Fold, Fresh, SiteOk, Converging, DistinctIds, View, Act, EndsWith, Flat, Sizes, Advanced;
    var before := Run(cfg, [], actions);
    var s := before[k];
    SiteIsItsHistory(cfg, actions, k);
    WindowsEnd(cfg, s.id, HistoryOf(cfg, [], actions, s.id));
    FoldCounts(cfg, s.id, HistoryOf(cfg, [], actions, s.id));
    var o := Alloced(a.ev.size, a.ev.tid, a.ev.ptr);
    AllocIsOne(cfg, actions, a, k);
    FullAgain(cfg, s, o);
    AdvancedCounts(cfg, s.(events := s.events + 1, allocs := Seen(s.allocs, o.tid), stack := Pushed(s.stack, o.ptr),
                           now := Filled(s.now, o.size), cur := s.cur + [o.size]));
  }

  /** An allocation at a known site changes its summary as its history goes on. */
  lemma AllocIsOne(cfg: Config, actions: seq<Action>, a: Action, k: nat)
    requires k < |Run(cfg, [], actions)|
    requires a.Observe? && a.ev.Alloc? && a.ev.site == Run(cfg, [], actions)[k].id && 0 < a.ev.size < MAX_SIZE
    ensures var before := Run(cfg, [], actions);
            k < |Act(cfg, before, a)| &&
            Act(cfg, before, a)[k] == One(cfg, before[k], Alloced(a.ev.size, a.ev.tid, a.ev.ptr))
  {
    hide Run, Fold, One, DistinctIds, Act;
    var before := Run(cfg, [], actions);
    NoIds();
    RunView(cfg, [], actions, before[k].id);
    ViewAt(before, k);
    ActView(cfg, before, a, before[k].id);
    ActStays(cfg, before, a, k);
    ViewAt(Act(cfg, before, a), k);
    FoldOne(cfg, before[k], OwnOf(before, a, before[k].id));
  }

  lemma NeverOne(cfg: Config, s: Site, o: Own)
    requires cfg.traceOnly && !s.phase.Compiled?
    ensures !One(cfg, s, o).phase.Compiled?
  {
    hide Stable, Recorded, Seen, Pushed, Voted;
  }

  lemma {:induction false} NeverFold(cfg: Config, id: Id, h: seq<Own>)
    requires cfg.traceOnly
    ensures !Fold(cfg, Fresh(id), h).phase.Compiled?
  {
    hide One;
    if h != [] {
      NeverFold(cfg, id, h[..|h| - 1]);
      NeverOne(cfg, Fold(cfg, Fresh(id), h[..|h| - 1]), h[|h| - 1]);
    }
  }

  /** In trace-only mode no run compiles anything. */
  lemma TraceOnlyNever(cfg: Config, actions: seq<Action>, k: nat)
    requires cfg.traceOnly && k < |Run(cfg, [], actions)|
    ensures !Run(cfg, [], actions)[k].phase.Compiled?
  {
    hide Run, Fold, HistoryOf, Fresh;
    SiteIsItsHistory(cfg, actions, k);
    NeverFold(cfg, Run(cfg, [], actions)[k].id, HistoryOf(cfg, [], actions, Run(cfg, [], actions)[k].id));
  }

  // ----- the event count of the first compilation -----

  lemma FirstKept(cfg: Config, s: Site, o: Own)
    ensures var n := One(cfg, s, o);
            n.firstCompile == if s.firstCompile == 0 && !s.phase.Compiled? && n.phase.Compiled? then n.events else s.firstCompile
  {
    hide Stable, Recorded, Seen, Pushed, Voted;
  }

  lemma {:induction false} FirstStays(cfg: Config, s: Site, h: seq<Own>)
    requires s.firstCompile != 0
    ensures Fold(cfg, s, h).firstCompile == s.firstCompile
  {
    hide One;
    if h != [] {
      FirstStays(cfg, s, h[..|h| - 1]);
      FirstKept(cfg, Fold(cfg, s, h[..|h| - 1]), h[|h| - 1]);
    }
  }

  /** first_compile_events is the number of allocations up to the event that first compiled the site; no later
      event or reset changes it. */
  lemma FirstCompileExactly(cfg: Config, actions: seq<Action>, a: Action, more: seq<Action>, k: nat)
    requires Sane(cfg) && k < |Run(cfg, [], actions)|
    requires Run(cfg, [], actions)[k].phase.PreSpec? && Run(cfg, [], actions)[k].firstCompile == 0
    requires a.Observe? && a.ev.Alloc? && a.ev.site == Run(cfg, [], actions)[k].id && 0 < a.ev.size < MAX_SIZE
    requires k < |Act(cfg, Run(cfg, [], actions), a)| && Act(cfg, Run(cfg, [], actions), a)[k].phase.Compiled?
    ensures var now := Act(cfg, Run(cfg, [], actions), a);
            k < |Run(cfg, now, more)| &&
            Run(cfg, now, more)[k].firstCompile == |AllocTids(HistoryOf(cfg, [], actions, now[k].id))| + 1
  {
    hide Run, HistoryOf, Fold, DistinctIds, View, Act, Sizes, Advanced, One, AllocTids, FreeTids, Freers, Resets, DistOf;
    var before := Run(cfg, [], actions);
    var o := Alloced(a.ev.size, a.ev.tid, a.ev.ptr);
    SummaryTallies(cfg, actions, k);
    AllocIsOne(cfg, actions, a, k);
    FirstKept(cfg, before[k], o);
    CountsOne(cfg, before[k], o);
    NoIds();
    RunView(cfg, [], actions, before[k].id);
    ActView(cfg, before, a, before[k].id);
    var now := Act(cfg, before, a);
    SiteGoesOn(cfg, now, more, k);
    FirstStays(cfg, now[k], HistoryOf(cfg, now, more, now[k].id));
  }

  lemma CountsOne(cfg: Config, s: Site, o: Own)
    requires o.Alloced?
    ensures One(cfg, s, o).events == s.events + 1 && One(cfg, s, o).id == s.id
  {
    hide Stable, Recorded, Seen, Pushed;
  }
}
