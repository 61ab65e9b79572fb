/** What becomes of a compiled site: the drift check, over its own history in any run. */
module Drift {
  import opened Histogram
  import opened KsTest
  import opened ThreadDist
  import opened Analyzer
  import opened PhaseMachine
  import opened History

  // ----- before a window is full -----

  lemma AllocWaits(cfg: Config, s: Site, o: Own)
    requires o.Alloced? && s.phase.Compiled? && s.post.count + 1 < cfg.window
    ensures var n := One(cfg, s, o);
            n.phase.Compiled? && n.post == Window(Recorded(s.post.hist, o.size), s.post.count + 1) && n.baseline == s.baseline &&
            n.past == s.past
  {
    hide Stable, Recorded, Seen, Pushed;
  }

  lemma FreeWaits(cfg: Config, s: Site, o: Own)
    requires o.FreedBy?
    ensures var n := One(cfg, s, o);
            n.phase == s.phase && n.post == s.post && n.baseline == s.baseline && n.reason == s.reason &&
            n.now == s.now && n.before == s.before && n.stable == s.stable && n.past == s.past && n.cur == s.cur &&
            n.deopts == s.deopts
  {
    hide Seen, Voted;
  }

  lemma {:induction false} Fills(cfg: Config, s: Site, h: seq<Own>)
    requires s.phase.Compiled? && s.post == CLEAR && Resets(h) == 0 && |Sizes(h)| < cfg.window
    ensures var n := Fold(cfg, s, h);
            n.phase.Compiled? && n.post == Window(HistOf(Sizes(h)), |Sizes(h)|) && n.baseline == s.baseline && n.past == s.past
  {
    hide One, HistOf;
    if h == [] {
      NothingRecorded();
    } else {
      var r, o := h[..|h| - 1], h[|h| - 1];
      Fills(cfg, s, r);
      if o.Alloced? {
        AllocWaits(cfg, Fold(cfg, s, r), o);
        OneMore(Sizes(r), o.size);
      } else {
        assert Sizes(h) == Sizes(r);
        FreeWaits(cfg, Fold(cfg, s, r), o);
      }
    }
  }

  // ----- at its end -----

  /** The site was deoptimised for drift: back to learning from scratch. */
  ghost predicate Drifted(n: Site) {
    n.phase.Deopt? && n.reason == SizeDrift && n.stable == 0 && n.now == CLEAR && n.before == CLEAR && n.post == CLEAR
  }

  /** It stays as it was, its window emptied. */
  ghost predicate Kept(s: Site, n: Site) {
    n.phase.Compiled? && n.post == CLEAR && n.baseline == s.baseline && n.past == s.past
  }

  lemma AllocChecks(cfg: Config, s: Site, o: Own)
    requires o.Alloced? && s.phase.Compiled? && s.post.count + 1 == cfg.window
    ensures if !cfg.oracle && !Stable(Recorded(s.post.hist, o.size), s.baseline, cfg.alpha) then Drifted(One(cfg, s, o))
            else Kept(s, One(cfg, s, o))
  {
    hide Stable, Recorded, Seen, Pushed;
  }

  lemma {:induction false} Checks(cfg: Config, s: Site, h: seq<Own>)
    requires s.phase.Compiled? && s.post == CLEAR && Resets(h) == 0 && |Sizes(h)| == cfg.window > 0
    ensures if !cfg.oracle && !Stable(HistOf(Sizes(h)), s.baseline, cfg.alpha) then Drifted(Fold(cfg, s, h))
            else Kept(s, Fold(cfg, s, h))
  {
    hide One, HistOf, Stable;
    assert h != [];
    var r, o := h[..|h| - 1], h[|h| - 1];
    if o.Alloced? {
      Fills(cfg, s, r);
      OneMore(Sizes(r), o.size);
      AllocChecks(cfg, Fold(cfg, s, r), o);
    } else {
      assert Sizes(h) == Sizes(r);
      Checks(cfg, s, r);
      FreeWaits(cfg, Fold(cfg, s, r), o);
    }
  }

  /** The drift check over runs: a compiled site whose next window of allocations has been seen, with any
      frees of its own and anything at all of other sites in between, has been deoptimised as drifted if and
      only if the replay is online and the window is not stable against the baseline; otherwise it stays
      compiled with an empty window. */
  lemma DriftExactly(cfg: Config, actions: seq<Action>, more: seq<Action>, k: nat)
    requires Sane(cfg) && k < |Run(cfg, [], actions)|
    requires var s := Run(cfg, [], actions)[k]; s.phase.Compiled? && s.post == CLEAR
    requires var before := Run(cfg, [], actions);
             var h := HistoryOf(cfg, before, more, before[k].id); Resets(h) == 0 && |Sizes(h)| == cfg.window
    ensures var before := Run(cfg, [], actions);
            var s, after := before[k], Run(cfg, before, more);
            var w := Sizes(HistoryOf(cfg, before, more, s.id));
            k < |after| &&
            if !cfg.oracle && !Stable(HistOf(w), s.baseline, cfg.alpha)
            then after[k].phase.Deopt? && after[k].reason == SizeDrift && after[k].post == CLEAR
            else after[k].phase.Compiled? && after[k].post == CLEAR && after[k].baseline == s.baseline
  {
    hide Run, Fold, HistoryOf, HistOf, Stable, DistinctIds, Sizes, Resets;
    var before := Run(cfg, [], actions);
    assert DistinctIds(before) by {
      NoIds();
      RunView(cfg, [], actions, before[k].id);
    }
    SiteGoesOn(cfg, before, more, k);
    Checks(cfg, before[k], HistoryOf(cfg, before, more, before[k].id));
  }

  /** A window of the very sizes it was compiled with, in whatever order, never deoptimises a site. */
  lemma SameSizesStay(cfg: Config, actions: seq<Action>, more: seq<Action>, k: nat)
    requires Sane(cfg) && k < |Run(cfg, [], actions)|
    requires var s := Run(cfg, [], actions)[k]; s.phase.Compiled? && s.post == CLEAR
    requires var before := Run(cfg, [], actions);
             var h := HistoryOf(cfg, before, more, before[k].id);
             Resets(h) == 0 && before[k].past != [] && multiset(Sizes(h)) == multiset(before[k].past[|before[k].past| - 1])
    ensures k < |Run(cfg, Run(cfg, [], actions), more)|
    ensures var n := Run(cfg, Run(cfg, [], actions), more)[k];
            n.phase.Compiled? && n.post == CLEAR && n.baseline == Run(cfg, [], actions)[k].baseline
  {
    hide Run, Fold, HistoryOf, HistOf, MaxGap, Sizes, Resets, Converging;
    var before := Run(cfg, [], actions);
    var s := before[k];
    var p, w := s.past[|s.past| - 1], Sizes(HistoryOf(cfg, before, more, s.id));
    CompiledMeans(cfg, actions, k);
    assert |w| == |multiset(w)| == |multiset(p)| == |p|;
    BaselineCounts(cfg, actions, k);
    StableReflexive(HistOf(p), cfg.alpha);
    StableAnyOrder(w, p, HistOf(p), cfg.alpha);
    DriftExactly(cfg, actions, more, k);
  }

  lemma BaselineCounts(cfg: Config, actions: seq<Action>, k: nat)
    requires Sane(cfg) && k < |Run(cfg, [], actions)| && Run(cfg, [], actions)[k].phase.Compiled?
    ensures Run(cfg, [], actions)[k].baseline.total > 0 && !Run(cfg, [], actions)[k].baseline.overflow
  {
    hide Run, HistOf, MaxGap;
    RunOk(cfg, [], actions);
    var s := Run(cfg, [], actions)[k];
    assert SiteOk(cfg, s);
    assert Stable(HistOf(s.past[|s.past| - 1]), HistOf(s.past[|s.past| - 2]), cfg.alpha);
  }

  // ----- when the check starts from an empty window -----

  lemma {:induction false} PostClear(cfg: Config, id: Id, h: seq<Own>)
    requires Resets(h) == 0
    ensures var s := Fold(cfg, Fresh(id), h); !s.phase.Compiled? ==> s.post == CLEAR
  {
    hide One;
    if h != [] {
      var r, o := h[..|h| - 1], h[|h| - 1];
      PostClear(cfg, id, r);
      PostStays(cfg, Fold(cfg, Fresh(id), r), o);
    }
  }

  lemma PostStays(cfg: Config, s: Site, o: Own)
    requires !o.ResetBy? && (!s.phase.Compiled? ==> s.post == CLEAR)
    ensures !One(cfg, s, o).phase.Compiled? ==> One(cfg, s, o).post == CLEAR
    ensures !s.phase.Compiled? ==> One(cfg, s, o).post == CLEAR
  {
    hide Stable, Recorded, Seen, Pushed, Voted;
  }

  /** A site that no reset ever named enters Compiled with an empty window. */
  lemma CompiledClear(cfg: Config, actions: seq<Action>, a: Action, k: nat)
    requires k < |Run(cfg, [], actions)| && !Run(cfg, [], actions)[k].phase.Compiled?
    requires Resets(HistoryOf(cfg, [], actions, Run(cfg, [], actions)[k].id)) == 0
    requires k < |Act(cfg, Run(cfg, [], actions), a)| && Act(cfg, Run(cfg, [], actions), a)[k].phase.Compiled?
    ensures Act(cfg, Run(cfg, [], actions), a)[k].post == CLEAR
  {
    hide Run, Fold, HistoryOf, DistinctIds, View, OwnOf, Act, Fresh;
    var before := Run(cfg, [], actions);
    var s := before[k];
    SiteIsItsHistory(cfg, actions, k);
    PostClear(cfg, s.id, HistoryOf(cfg, [], actions, s.id));
    assert DistinctIds(before) by {
      NoIds();
      RunView(cfg, [], actions, s.id);
    }
    ActView(cfg, before, a, s.id);
    ViewAt(before, k);
    ActStays(cfg, before, a, k);
    ViewAt(Act(cfg, before, a), k);
    var o := OwnOf(before, a, s.id);
    OwnLength(before, a, s.id);
    FoldOne(cfg, s, o);
    if o != [] {
      if o[0].ResetBy? {
        ResetLeaves(cfg, s, o[0]);
      } else {
        PostStays(cfg, s, o[0]);
      }
    }
  }

  lemma OwnLength(sites: seq<Site>, a: Action, id: Id)
    ensures |OwnOf(sites, a, id)| <= 1
  {
  }

  lemma ResetLeaves(cfg: Config, s: Site, o: Own)
    requires o.ResetBy?
    ensures !One(cfg, s, o).phase.Compiled?
  {
  }

  // ----- why a site was deoptimised -----

  lemma EventReason(cfg: Config, s: Site, o: Own)
    requires !o.ResetBy?
    ensures var n := One(cfg, s, o);
            n.deopts == s.deopts &&
            (n.reason != s.reason ==> o.Alloced? && s.phase.Compiled? && n.phase.Deopt? && n.reason == SizeDrift)
  {
    hide Stable, Recorded, Seen, Pushed, Voted;
  }

  lemma ResetReason(cfg: Config, s: Site, r: Reason)
    ensures var n := One(cfg, s, ResetBy(r));
            n.deopts == s.deopts + 1 && n.phase.Deopt? && (r != Other || s.reason == NoReason ==> n.reason == r) &&
            (n.reason != s.reason ==> n.reason == r) && (r == Other && s.reason != NoReason ==> n.reason == s.reason)
  {
  }

  /** Over runs: a site's deopts are counted by the resets that name it, each of which takes it to Deopt and
      records a specific reason, or Other where there was none; otherwise the reason only changes to SizeDrift,
      when the drift check deoptimises the site; and Other never replaces a reason. */
  lemma ReasonExactly(cfg: Config, actions: seq<Action>, a: Action, k: nat)
    requires k < |Run(cfg, [], actions)|
    ensures var before := Run(cfg, [], actions);
            k < |Act(cfg, before, a)| && var s, n := before[k], Act(cfg, before, a)[k];
            if a.Retire? && a.site == s.id
            then n.phase.Deopt? && n.deopts == s.deopts + 1 &&
                 n.reason == if a.reason != Other || s.reason == NoReason then a.reason else s.reason
            else n.deopts == s.deopts &&
                 (n.reason != s.reason ==> s.phase.Compiled? && n.phase.Deopt? && n.reason == SizeDrift)
  {
    hide Run, Fold, One, DistinctIds, View, Act, FindTop;
    var before := Run(cfg, [], actions);
    var s := before[k];
    NoIds();
    RunView(cfg, [], actions, s.id);
    ActView(cfg, before, a, s.id);
    ViewAt(before, k);
    ActStays(cfg, before, a, k);
    ViewAt(Act(cfg, before, a), k);
    var o := OwnOf(before, a, s.id);
    OwnLength(before, a, s.id);
    FoldOne(cfg, s, o);
    if o != [] {
      if o[0].ResetBy? {
        ResetReason(cfg, s, o[0].reason);
      } else {
        EventReason(cfg, s, o[0]);
      }
    }
  }
}
