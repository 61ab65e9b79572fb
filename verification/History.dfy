/** The history of one site: the events and resets that concern it, out of any run over any number of sites;
    and what its summary is, as a function of that history. */
module History {
  import opened Histogram
  import opened KsTest
  import opened ThreadDist
  import opened Analyzer
  import opened PhaseMachine

  /** What can happen to a site.  A free of a chunk in a managed segment names its site in the header; any
      other is the site's whose latest allocation it frees. */
  datatype Own = Alloced(size: nat, tid: nat, ptr: Ptr) | FreedBy(site: Id, tid: nat, ptr: Ptr, managed: bool)
               | ResetBy(reason: Reason)

  predicate Known(sites: seq<Site>, id: Id) { FindSite(sites, id) < |sites| }

  /** Whether an action concerns the site, given the table it finds. */
  function OwnOf(sites: seq<Site>, a: Action, id: Id): seq<Own> {
    match a
    case Observe(Alloc(site, size, ptr, tid)) =>
      if site == id && 0 < size < 4096 && (Known(sites, id) || |sites| < 4096) then [Alloced(size, tid, ptr)] else []
    case Observe(Free(site, ptr, tid, Managed(owner))) =>
      if owner == id && ptr != 0 && (Known(sites, id) || |sites| < 4096) then [FreedBy(site, tid, ptr, true)] else []
    case Observe(Free(site, ptr, tid, Unmanaged)) =>
      var k := FindTop(sites, ptr);
      if ptr != 0 && k < |sites| && sites[k].id == id then [FreedBy(site, tid, ptr, false)] else []
    case Retire(site, reason) =>
      if site == id && Known(sites, id) then [ResetBy(reason)] else []
  }

  function HistoryOf(cfg: Config, sites: seq<Site>, actions: seq<Action>, id: Id): seq<Own>
    decreases |actions|
  {
    if actions == [] then []
    else OwnOf(sites, actions[0], id) + HistoryOf(cfg, Act(cfg, sites, actions[0]), actions[1..], id)
  }

  function One(cfg: Config, s: Site, o: Own): Site {
    match o
    case Alloced(size, tid, ptr) => Allocated(cfg, s, size, tid, ptr)
    case FreedBy(site, tid, ptr, managed) => Freed(s, site, tid, ptr, managed)
    case ResetBy(reason) => Reset(cfg, s, reason)
  }

  function Fold(cfg: Config, s: Site, h: seq<Own>): Site {
    if h == [] then s else One(cfg, Fold(cfg, s, h[..|h| - 1]), h[|h| - 1])
  }

  lemma {:induction false} FoldConcat(cfg: Config, s: Site, a: seq<Own>, b: seq<Own>)
    ensures Fold(cfg, s, a + b) == Fold(cfg, Fold(cfg, s, a), b)
    decreases |b|
  {
    hide One;
    if b == [] {
      assert a + b == a;
    } else {
      assert (a + b)[..|a + b| - 1] == a + b[..|b| - 1];
      FoldConcat(cfg, s, a, b[..|b| - 1]);
    }
  }

  lemma FoldOne(cfg: Config, s: Site, h: seq<Own>)
    requires |h| <= 1
    ensures Fold(cfg, s, h) == if h == [] then s else One(cfg, s, h[0])
  {
    hide One;
    if h != [] {
      assert h[..0] == [];
    }
  }

  // ----- the table is the sites' histories -----

  ghost predicate DistinctIds(sites: seq<Site>) {
    forall i, j :: 0 <= i < j < |sites| ==> sites[i].id != sites[j].id
  }

  /** The site's summary, or the one it would start with. */
  function View(sites: seq<Site>, id: Id): Site {
    var k := FindSite(sites, id);
    if k < |sites| then sites[k] else Fresh(id)
  }

  lemma ViewAt(sites: seq<Site>, k: nat)
    requires DistinctIds(sites) && k < |sites|
    ensures FindSite(sites, sites[k].id) == k && View(sites, sites[k].id) == sites[k]
  {
    var j := FindSite(sites, sites[k].id);
    assert j <= k;
  }

  lemma KeepsId(cfg: Config, s: Site, o: Own)
    ensures One(cfg, s, o).id == s.id
  {
    hide Stable, Recorded, Seen, Pushed, Voted;
  }

  /** Replacing a summary by one of the same id changes that id's view and no other. */
  lemma Replaced(sites: seq<Site>, k: nat, s: Site, id: Id)
    requires DistinctIds(sites) && k < |sites| && s.id == sites[k].id
    ensures DistinctIds(sites[k := s])
    ensures View(sites[k := s], id) == if id == s.id then s else View(sites, id)
    ensures Known(sites[k := s], id) == Known(sites, id)
  {
    var n := sites[k := s];
    assert forall i :: 0 <= i < |n| ==> n[i].id == sites[i].id;
    SameFind(sites, n, id, 0);
    ViewAt(n, k);
  }

  lemma {:induction false} SameFind(a: seq<Site>, b: seq<Site>, id: Id, i: nat)
    requires |a| == |b| && i <= |a| && forall j :: 0 <= j < |a| ==> a[j].id == b[j].id
    ensures FindSite(a, id, i) == FindSite(b, id, i)
    decreases |a| - i
  {
    if i < |a| {
      SameFind(a, b, id, i + 1);
    }
  }

  /** Adding a summary changes no view: it is what was assumed of the missing site. */
  lemma Added(sites: seq<Site>, site: Id, id: Id)
    requires DistinctIds(sites)
    ensures DistinctIds(Ensured(sites, site)) && View(Ensured(sites, site), id) == View(sites, id)
    ensures Known(Ensured(sites, site), site) <==> Known(sites, site) || |sites| < 4096
  {
    var n := Ensured(sites, site);
    if n != sites {
      Appended(sites, Fresh(site), id, 0);
      Appended(sites, Fresh(site), site, 0);
    }
  }

  lemma {:induction false} Appended(sites: seq<Site>, s: Site, id: Id, i: nat)
    requires i <= |sites|
    ensures FindSite(sites + [s], id, i) == if FindSite(sites, id, i) < |sites| then FindSite(sites, id, i)
                                            else if s.id == id then |sites| else |sites| + 1
    decreases |sites| - i
  {
    if i < |sites| {
      Appended(sites, s, id, i + 1);
    }
  }

  /** One action: each site's summary changes by what concerns it. */
  lemma ActView(cfg: Config, sites: seq<Site>, a: Action, id: Id)
    requires DistinctIds(sites)
    ensures DistinctIds(Act(cfg, sites, a))
    ensures View(Act(cfg, sites, a), id) == Fold(cfg, View(sites, id), OwnOf(sites, a, id))
  {
    hide Fold, Ensured, Fresh, Allocated, Freed, Reset, View, DistinctIds;
    FoldOne(cfg, View(sites, id), OwnOf(sites, a, id));
    match a
    case Observe(Alloc(site, size, ptr, tid)) =>
      if 0 < size < MAX_SIZE {
        Added(sites, site, id);
        Added(sites, site, site);
        OnSite(cfg, Ensured(sites, site), site, Alloced(size, tid, ptr), id);
      }
    case Observe(Free(site, ptr, tid, Managed(owner))) =>
      if ptr != 0 {
        Added(sites, owner, id);
        Added(sites, owner, owner);
        OnSite(cfg, Ensured(sites, owner), owner, FreedBy(site, tid, ptr, true), id);
      }
    case Observe(Free(site, ptr, tid, Unmanaged)) =>
      var k := FindTop(sites, ptr);
      if ptr != 0 && k < |sites| {
        At(sites, k);
        OnSite(cfg, sites, sites[k].id, FreedBy(site, tid, ptr, false), id);
      }
    case Retire(site, reason) =>
      OnSite(cfg, sites, site, ResetBy(reason), id);
  }

  lemma At(sites: seq<Site>, k: nat)
    requires DistinctIds(sites) && k < |sites|
    ensures FindSite(sites, sites[k].id) == k
  {
    ViewAt(sites, k);
  }

  lemma OnSite(cfg: Config, sites: seq<Site>, site: Id, o: Own, id: Id)
    requires DistinctIds(sites)
    ensures var k := FindSite(sites, site);
            var n := if k == |sites| then sites else sites[k := One(cfg, sites[k], o)];
            DistinctIds(n) && View(n, id) == if id == site && Known(sites, site) then One(cfg, View(sites, id), o) else View(sites, id)
  {
    hide One, DistinctIds;
    var k := FindSite(sites, site);
    if k < |sites| {
      KeepsId(cfg, sites[k], o);
      Replaced(sites, k, One(cfg, sites[k], o), id);
    }
  }

  lemma NoIds()
    ensures DistinctIds([])
  {
  }

  lemma {:induction false} RunView(cfg: Config, sites: seq<Site>, actions: seq<Action>, id: Id)
    requires DistinctIds(sites)
    ensures DistinctIds(Run(cfg, sites, actions))
    ensures View(Run(cfg, sites, actions), id) == Fold(cfg, View(sites, id), HistoryOf(cfg, sites, actions, id))
    decreases |actions|
  {
    hide View, DistinctIds, Act, OwnOf, Fold;
    if actions == [] {
      FoldOne(cfg, View(sites, id), []);
    } else {
      var n := Act(cfg, sites, actions[0]);
      ActView(cfg, sites, actions[0], id);
      RunView(cfg, n, actions[1..], id);
      FoldConcat(cfg, View(sites, id), OwnOf(sites, actions[0], id), HistoryOf(cfg, n, actions[1..], id));
    }
  }

  /** After any run, every summary is its own history folded, whatever other sites did in between. */
  lemma SiteIsItsHistory(cfg: Config, actions: seq<Action>, k: nat)
    requires k < |Run(cfg, [], actions)|
    ensures var s := Run(cfg, [], actions)[k]; s == Fold(cfg, Fresh(s.id), HistoryOf(cfg, [], actions, s.id))
  {
    hide Run, Fold, HistoryOf, Fresh;
    RunView(cfg, [], actions, Run(cfg, [], actions)[k].id);
    ViewAt(Run(cfg, [], actions), k);
  }

  /** The same from any table a run has led to. */
  lemma SiteGoesOn(cfg: Config, sites: seq<Site>, more: seq<Action>, k: nat)
    requires DistinctIds(sites) && k < |sites|
    ensures k < |Run(cfg, sites, more)|
    ensures Run(cfg, sites, more)[k] == Fold(cfg, sites[k], HistoryOf(cfg, sites, more, sites[k].id))
  {
    hide Fold, HistoryOf, DistinctIds, Run;
    RunView(cfg, sites, more, sites[k].id);
    ViewAt(sites, k);
    StaysPut(cfg, sites, more, k);
    ViewAt(Run(cfg, sites, more), k);
  }

  lemma {:induction false} StaysPut(cfg: Config, sites: seq<Site>, more: seq<Action>, k: nat)
    requires k < |sites|
    ensures k < |Run(cfg, sites, more)| && Run(cfg, sites, more)[k].id == sites[k].id
    decreases |more|
  {
    hide Act;
    if more != [] {
      ActStays(cfg, sites, more[0], k);
      StaysPut(cfg, Act(cfg, sites, more[0]), more[1..], k);
    }
  }

  lemma ActStays(cfg: Config, sites: seq<Site>, a: Action, k: nat)
    requires k < |sites|
    ensures k < |Act(cfg, sites, a)| && Act(cfg, sites, a)[k].id == sites[k].id
  {
    hide Allocated, Freed, FindSite, FindTop;
    if a.Observe? {
      EventsKeepListing(cfg, sites[k], if a.ev.Alloc? then a.ev.size else 0, a.ev.tid, a.ev.ptr);
    }
  }

  // ----- what a history holds -----

  function Sizes(h: seq<Own>): seq<nat> {
    if h == [] then []
    else Sizes(h[..|h| - 1]) + if h[|h| - 1].Alloced? then [h[|h| - 1].size] else []
  }

  function AllocTids(h: seq<Own>): seq<nat> {
    if h == [] then []
    else AllocTids(h[..|h| - 1]) + if h[|h| - 1].Alloced? then [h[|h| - 1].tid] else []
  }

  function FreeTids(h: seq<Own>): seq<nat> {
    if h == [] then []
    else FreeTids(h[..|h| - 1]) + if h[|h| - 1].FreedBy? then [h[|h| - 1].tid] else []
  }

  /** The sites that freed its chunks of unmanaged memory. */
  function Freers(h: seq<Own>): seq<nat> {
    if h == [] then []
    else Freers(h[..|h| - 1]) + if h[|h| - 1].FreedBy? && !h[|h| - 1].managed then [h[|h| - 1].site as nat] else []
  }

  function Resets(h: seq<Own>): nat {
    if h == [] then 0 else Resets(h[..|h| - 1]) + if h[|h| - 1].ResetBy? then 1 else 0
  }

  lemma {:induction false} SizesConcat(a: seq<Own>, b: seq<Own>)
    ensures Sizes(a + b) == Sizes(a) + Sizes(b)
    decreases |b|
  {
    if b == [] {
      assert a + b == a;
    } else {
      assert (a + b)[..|a + b| - 1] == a + b[..|b| - 1];
      SizesConcat(a, b[..|b| - 1]);
    }
  }

  lemma {:induction false} ResetsConcat(a: seq<Own>, b: seq<Own>)
    ensures Resets(a + b) == Resets(a) + Resets(b)
    decreases |b|
  {
    if b == [] {
      assert a + b == a;
    } else {
      assert (a + b)[..|a + b| - 1] == a + b[..|b| - 1];
      ResetsConcat(a, b[..|b| - 1]);
    }
  }

  lemma {:induction false} Lengths(h: seq<Own>)
    ensures |Sizes(h)| == |AllocTids(h)| && |Freers(h)| <= |FreeTids(h)|
  {
    if h != [] {
      Lengths(h[..|h| - 1]);
    }
  }

  // ----- the counters are those of the history -----

  ghost predicate Tallies(cfg: Config, s: Site, h: seq<Own>) {
    s.events == |AllocTids(h)| && s.frees == |FreeTids(h)| && s.deopts == Resets(h) &&
    s.allocs == DistOf(AllocTids(h)) && s.freed == DistOf(FreeTids(h)) &&
    (s.blacklisted <==> Resets(h) >= cfg.limit) &&
    s.pair.freeSite == DistOf(Freers(h)).topTid && s.pair.pairs == DistOf(Freers(h)).topCount
  }

  lemma Snoc<T>(q: seq<T>, x: T)
    ensures (q + [x])[..|q|] == q && (q + [x])[|q|] == x && q + [] == q
  {
  }

  lemma AllocTallies(cfg: Config, s: Site, h: seq<Own>, o: Own)
    requires Tallies(cfg, s, h) && o.Alloced?
    ensures Tallies(cfg, One(cfg, s, o), h + [o])
  {
    hide One, Seen, DistOf;
    AllocatedFields(cfg, s, o);
    Snoc(h, o);
    DistMore(AllocTids(h), o.tid);
    assert FreeTids(h) + [] == FreeTids(h) && Freers(h) + [] == Freers(h);
  }

  lemma AllocatedFields(cfg: Config, s: Site, o: Own)
    requires o.Alloced?
    ensures var n := One(cfg, s, o);
            n.events == s.events + 1 && n.frees == s.frees && n.allocs == Seen(s.allocs, o.tid) && n.freed == s.freed &&
            n.deopts == s.deopts && n.blacklisted == s.blacklisted && n.pair == s.pair
  {
    hide Stable, Recorded, Pushed, Seen;
  }

  lemma FreeTallies(cfg: Config, s: Site, h: seq<Own>, o: Own)
    requires Tallies(cfg, s, h) && o.FreedBy?
    ensures Tallies(cfg, One(cfg, s, o), h + [o])
  {
    hide OnTop, Voted, Seen, DistOf;
    Snoc(h, o);
    DistMore(FreeTids(h), o.tid);
    DistMore(Freers(h), o.site as nat);
    VoteIsSeen(s.pair, DistOf(Freers(h)), o.site);
    FreedFields(s, o);
    assert AllocTids(h) + [] == AllocTids(h) && Freers(h) + [] == Freers(h);
  }

  lemma DistMore(q: seq<nat>, x: nat)
    ensures DistOf(q + [x]) == Seen(DistOf(q), x)
  {
    Snoc(q, x);
  }

  /** The vote for the freeing site is the thread counter's. */
  lemma VoteIsSeen(q: Pair, d: Dist, site: Id)
    requires q.freeSite == d.topTid && q.pairs == d.topCount
    ensures Voted(q, site).freeSite == Seen(d, site).topTid && Voted(q, site).pairs == Seen(d, site).topCount
  {
  }

  lemma FreedFields(s: Site, o: Own)
    requires o.FreedBy?
    ensures var n := Freed(s, o.site, o.tid, o.ptr, o.managed);
            n.events == s.events && n.frees == s.frees + 1 && n.allocs == s.allocs && n.freed == Seen(s.freed, o.tid) &&
            n.deopts == s.deopts && n.blacklisted == s.blacklisted &&
            (if o.managed then n.pair == s.pair
             else n.pair.freeSite == Voted(s.pair, o.site).freeSite && n.pair.pairs == Voted(s.pair, o.site).pairs)
  {
    hide Voted, Seen;
  }

  lemma ResetTallies(cfg: Config, s: Site, h: seq<Own>, o: Own)
    requires Tallies(cfg, s, h) && o.ResetBy?
    ensures Tallies(cfg, One(cfg, s, o), h + [o])
  {
    hide Seen;
    Snoc(h, o);
    Snoc(AllocTids(h), 0);
    Snoc(FreeTids(h), 0);
    Snoc(Freers(h), 0);
  }

  /** Every counter of a summary is determined by its history. */
  lemma {:induction false} FoldTallies(cfg: Config, id: Id, h: seq<Own>)
    requires cfg.limit > 0
    ensures Tallies(cfg, Fold(cfg, Fresh(id), h), h)
  {
    hide Tallies, One;
    if h == [] {
      NoTallies(cfg, id);
    } else {
      var r, o := h[..|h| - 1], h[|h| - 1];
      FoldTallies(cfg, id, r);
      assert h == r + [o];
      match o
      case Alloced(_, _, _) => AllocTallies(cfg, Fold(cfg, Fresh(id), r), r, o);
      case FreedBy(_, _, _, _) => FreeTallies(cfg, Fold(cfg, Fresh(id), r), r, o);
      case ResetBy(_) => ResetTallies(cfg, Fold(cfg, Fresh(id), r), r, o);
    }
  }

  lemma NoTallies(cfg: Config, id: Id)
    requires cfg.limit > 0
    ensures Tallies(cfg, Fresh(id), [])
  {
  }

  /** So in every run: events, frees, both thread distributions and the freeing-site vote are those of the
      events attributed to the site, and it is blacklisted exactly when that many resets named it. */
  lemma SummaryTallies(cfg: Config, actions: seq<Action>, k: nat)
    requires cfg.limit > 0 && k < |Run(cfg, [], actions)|
    ensures var s := Run(cfg, [], actions)[k];
            var h := HistoryOf(cfg, [], actions, s.id);
            s.events == |AllocTids(h)| && s.frees == |FreeTids(h)| && s.deopts == Resets(h) &&
            s.allocs == DistOf(AllocTids(h)) && s.freed == DistOf(FreeTids(h)) &&
            (s.blacklisted <==> Resets(h) >= cfg.limit) &&
            s.pair.freeSite == DistOf(Freers(h)).topTid && s.pair.pairs == DistOf(Freers(h)).topCount
  {
    hide Run, Fold, HistoryOf, Fresh, DistOf, AllocTids, FreeTids, Freers, Resets;
    var s := Run(cfg, [], actions)[k];
    SiteIsItsHistory(cfg, actions, k);
    FoldTallies(cfg, s.id, HistoryOf(cfg, [], actions, s.id));
  }

  // ----- frees in stack order -----

  /** Every unmanaged free of h was of the chunk on top of the site's stack when it came. */
  ghost predicate Matched(cfg: Config, s: Site, h: seq<Own>) {
    forall i :: 0 <= i < |h| && h[i].FreedBy? && !h[i].managed ==> OnTop(Fold(cfg, s, h[..i]), h[i].ptr)
  }

  lemma MatchedConcat(cfg: Config, s: Site, a: seq<Own>, b: seq<Own>)
    requires Matched(cfg, s, a) && Matched(cfg, Fold(cfg, s, a), b)
    ensures Matched(cfg, s, a + b)
  {
    hide Fold, OnTop;
    var h := a + b;
    forall i | 0 <= i < |h| && h[i].FreedBy? && !h[i].managed
      ensures OnTop(Fold(cfg, s, h[..i]), h[i].ptr)
    {
      if i < |a| {
        assert h[..i] == a[..i];
      } else {
        assert h[..i] == a + b[..i - |a|];
        FoldConcat(cfg, s, a, b[..i - |a|]);
      }
    }
  }

  /** In a run they all are: that is how an unmanaged free finds its site. */
  lemma {:induction false} RunMatches(cfg: Config, sites: seq<Site>, actions: seq<Action>, id: Id)
    requires DistinctIds(sites)
    ensures Matched(cfg, View(sites, id), HistoryOf(cfg, sites, actions, id))
    decreases |actions|
  {
    hide DistinctIds, Act, View, Fold, OwnOf, Matched;
    if actions == [] {
      assert Matched(cfg, View(sites, id), []) by { NoneMatched(cfg, View(sites, id)); }
    } else {
      var n := Act(cfg, sites, actions[0]);
      ActView(cfg, sites, actions[0], id);
      RunMatches(cfg, n, actions[1..], id);
      OwnMatches(cfg, sites, actions[0], id);
      MatchedConcat(cfg, View(sites, id), OwnOf(sites, actions[0], id), HistoryOf(cfg, n, actions[1..], id));
    }
  }

  lemma NoneMatched(cfg: Config, s: Site)
    ensures Matched(cfg, s, [])
  {
  }

  lemma OwnMatches(cfg: Config, sites: seq<Site>, a: Action, id: Id)
    requires DistinctIds(sites)
    ensures Matched(cfg, View(sites, id), OwnOf(sites, a, id))
  {
    hide Fold;
    var h := OwnOf(sites, a, id);
    if h != [] {
      assert h[..0] == [];
      FoldOne(cfg, View(sites, id), []);
    }
    if a.Observe? && a.ev.Free? && a.ev.owner.Unmanaged? {
      var k := FindTop(sites, a.ev.ptr);
      if k < |sites| {
        ViewAt(sites, k);
      }
    }
  }

  lemma FewerMatched(cfg: Config, s: Site, h: seq<Own>)
    requires h != [] && Matched(cfg, s, h)
    ensures Matched(cfg, s, h[..|h| - 1])
  {
    hide Fold, OnTop;
    var r := h[..|h| - 1];
    forall i | 0 <= i < |r| && r[i].FreedBy? && !r[i].managed
      ensures OnTop(Fold(cfg, s, r[..i]), r[i].ptr)
    {
      assert r[..i] == h[..i];
    }
  }

  lemma KeepsPair(cfg: Config, s: Site, o: Own)
    requires !o.FreedBy? || o.managed
    ensures One(cfg, s, o).pair == s.pair
  {
    hide Stable, Recorded, Seen, Pushed;
  }

  /** The LIFO count against the vote and the true number of frees. */
  ghost predicate LifoWithin(s: Site, h: seq<Own>) {
    s.pair.pairs <= s.pair.lifo <= Times(Freers(h), s.pair.freeSite) && (s.pair.pairs == 0 ==> s.pair.lifo == 0)
  }

  lemma LifoVotes(cfg: Config, s: Site, h: seq<Own>, o: Own)
    requires o.FreedBy? && !o.managed && OnTop(s, o.ptr) && LifoWithin(s, h)
    ensures LifoWithin(One(cfg, s, o), h + [o])
  {
    hide Seen;
    Snoc(h, o);
    assert (Freers(h) + [o.site as nat])[..|Freers(h)|] == Freers(h);
  }

  lemma {:induction false} LifoFolds(cfg: Config, id: Id, h: seq<Own>)
    requires Matched(cfg, Fresh(id), h)
    ensures LifoWithin(Fold(cfg, Fresh(id), h), h)
  {
    hide One, LifoWithin;
    if h == [] {
      NoLifo(id);
    } else {
      var r, o := h[..|h| - 1], h[|h| - 1];
      FewerMatched(cfg, Fresh(id), h);
      LifoFolds(cfg, id, r);
      assert h == r + [o];
      if o.FreedBy? && !o.managed {
        LifoVotes(cfg, Fold(cfg, Fresh(id), r), r, o);
      } else {
        KeepsPair(cfg, Fold(cfg, Fresh(id), r), o);
        LifoStays(Fold(cfg, Fresh(id), r), Fold(cfg, Fresh(id), h), r, h);
      }
    }
  }

  lemma NoLifo(id: Id)
    ensures LifoWithin(Fresh(id), [])
  {
  }

  lemma LifoStays(s: Site, n: Site, r: seq<Own>, h: seq<Own>)
    requires LifoWithin(s, r) && n.pair == s.pair && Freers(h) == Freers(r)
    ensures LifoWithin(n, h)
  {
  }

  /** In every run the LIFO count is at least the vote for the freeing site, and no more than the chunks that
      site freed: as a free of unmanaged memory is only attributed when it matches, the LIFO ratio never
      decides. */
  lemma LifoNeverDecides(cfg: Config, actions: seq<Action>, k: nat)
    requires k < |Run(cfg, [], actions)|
    ensures var s := Run(cfg, [], actions)[k];
            s.pair.pairs <= s.pair.lifo <= Times(Freers(HistoryOf(cfg, [], actions, s.id)), s.pair.freeSite)
  {
    hide Run, Fold, HistoryOf, Fresh, Freers, Matched, View;
    var s := Run(cfg, [], actions)[k];
    SiteIsItsHistory(cfg, actions, k);
    NoIds();
    RunMatches(cfg, [], actions, s.id);
    Unseen(s.id);
    LifoFolds(cfg, s.id, HistoryOf(cfg, [], actions, s.id));
  }

  lemma Unseen(id: Id)
    ensures View([], id) == Fresh(id)
  {
  }
}
