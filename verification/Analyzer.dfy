/** The analyzer's per-site phase machine: windows of allocation sizes, the convergence bar, drift,
    deoptimisation and blacklisting; online, and as the oracle replay runs it. */
module Analyzer {
  import opened Histogram
  import opened KsTest
  import opened ThreadDist

  type Id = x: int | 0 <= x < 0x1_0000_0000
  type Ptr = nat

  const MAX_CALL_SITES: nat := 4096
  const STACK_DEPTH: nat := 16

  /** The picker's knobs and modes. */
  datatype Config = Config(window: nat, bar: nat, alpha: real, limit: nat, oracle: bool, traceOnly: bool)

  predicate Sane(cfg: Config) { cfg.window > 0 && cfg.bar > 0 && cfg.limit > 0 }

  datatype Phase = PreSpec | Compiled | Deopt
  datatype Reason = NoReason | SizeDrift | RegionExhaust | ThreadShift | LifoViolation | Other
  datatype Lifetime = Unknown | Reap | Hold

  datatype Window = Window(hist: Hist, count: nat)

  const CLEAR: Window := Window(EMPTY, 0)

  datatype Pair = Pair(freeSite: Id, pairs: nat, lifo: nat)

  /** A call-site summary.  past and cur are history: the sizes of the complete windows, and of the
      current one, since the site last entered PreSpec. */
  datatype Site = Site(id: Id, phase: Phase, events: nat, frees: nat, stable: nat, deopts: nat, blacklisted: bool,
                       reason: Reason, lifetime: Lifetime, firstCompile: nat, allocs: Dist, freed: Dist,
                       now: Window, before: Window, stack: seq<Ptr>, pair: Pair, baseline: Hist, post: Window,
                       past: seq<seq<nat>>, cur: seq<nat>)

  function Fresh(id: Id): Site {
    Site(id, PreSpec, 0, 0, 0, 0, false, NoReason, Unknown, 0, NONE, NONE, CLEAR, CLEAR, [], Pair(0, 0, 0), EMPTY, CLEAR,
         [], [])
  }

  function Filled(w: Window, size: nat): Window { Window(Recorded(w.hist, size), w.count + 1) }

  /** The tag derived from the free/alloc ratio when a site specializes. */
  function TagFor(s: Site): Lifetime {
    if s.events == 0 then s.lifetime
    else if 100 * s.frees >= 50 * s.events then Reap
    else if 100 * s.frees < 10 * s.events then Hold
    else Unknown
  }

  /** The other window becomes the current one, emptied. */
  function Flip(s: Site): Site { s.(now := CLEAR, before := s.now, past := s.past + [s.cur], cur := []) }

  /** advance_prespec: a full window is compared with the one before. */
  function Advanced(cfg: Config, s: Site): Site {
    if !(s.before.count > 0 && Stable(s.now.hist, s.before.hist, cfg.alpha)) then Flip(s.(stable := 0))
    else if s.stable + 1 < cfg.bar then Flip(s.(stable := s.stable + 1))
    else if s.blacklisted || cfg.traceOnly then Flip(s.(stable := 0))
    else s.(stable := s.stable + 1, baseline := s.now.hist, lifetime := TagFor(s), phase := Compiled,
            firstCompile := if s.firstCompile == 0 then s.events else s.firstCompile,
            past := s.past + [s.cur], cur := [])
  }

  /** check_postspec: drift against the baseline, which the oracle ignores. */
  function Checked(cfg: Config, s: Site): Site {
    if cfg.oracle || Stable(s.post.hist, s.baseline, cfg.alpha) then s.(post := CLEAR)
    else s.(phase := Deopt, reason := SizeDrift, stable := 0, now := CLEAR, before := CLEAR, post := CLEAR)
  }

  /** The per-site stack of the last 16 allocations; the oldest falls off. */
  function Pushed(stack: seq<Ptr>, p: Ptr): seq<Ptr> {
    if p == 0 then stack
    else if |stack| < STACK_DEPTH then stack + [p]
    else stack[1..] + [p]
  }

  /** What an allocation event does to the fields no phase depends on. */
  function Counted(s: Site, tid: nat, p: Ptr): Site {
    s.(events := s.events + 1, allocs := Seen(s.allocs, tid), stack := Pushed(s.stack, p))
  }

  function Entered(s: Site): Site {
    if s.phase.Deopt? then s.(phase := PreSpec, past := [], cur := []) else s
  }

  /** An allocation event of a size below 4096. */
  function Allocated(cfg: Config, s: Site, size: nat, tid: nat, p: Ptr): Site {
    var e := Entered(Counted(s, tid, p));
    if e.phase.PreSpec? then
      var r := e.(now := Filled(e.now, size), cur := e.cur + [size]);
      if r.now.count >= cfg.window then Advanced(cfg, r) else r
    else
      var r := e.(post := Filled(e.post, size));
      if r.post.count >= cfg.window then Checked(cfg, r) else r
  }

  /** The vote for the dominant freeing site. */
  function Voted(q: Pair, site: Id): Pair {
    if q.pairs == 0 || q.freeSite == site then Pair(site, q.pairs + 1, q.lifo)
    else if q.pairs == 1 then Pair(site, 1, 0)
    else Pair(q.freeSite, q.pairs - 1, q.lifo)
  }

  predicate OnTop(s: Site, p: Ptr) { s.stack != [] && s.stack[|s.stack| - 1] == p }

  /** A free event attributed to s; for a chunk of a managed segment the pair vote is skipped. */
  function Freed(s: Site, freeSite: Id, tid: nat, p: Ptr, managed: bool): Site {
    var f := s.(frees := s.frees + 1, freed := Seen(s.freed, tid));
    if managed then f
    else
      var g := f.(pair := Voted(f.pair, freeSite));
      if !OnTop(g, p) then g
      else g.(stack := g.stack[..|g.stack| - 1],
              pair := if g.pair.freeSite == freeSite then Pair(g.pair.freeSite, g.pair.pairs, g.pair.lifo + 1) else g.pair)
  }

  /** reset_call_site, on the site a page was retired for. */
  function Reset(cfg: Config, s: Site, reason: Reason): Site {
    s.(deopts := s.deopts + 1, blacklisted := s.blacklisted || s.deopts + 1 >= cfg.limit,
       reason := if reason != Other || s.reason == NoReason then reason else s.reason,
       phase := Deopt, stable := 0, now := CLEAR, before := CLEAR)
  }

  // ----- the whole table -----

  /** An event; owner is the allocating site a managed segment's header names, when ptr lies in one. */
  datatype Owner = Managed(site: Id) | Unmanaged
  datatype Event = Alloc(site: Id, size: nat, ptr: Ptr, tid: nat) | Free(site: Id, ptr: Ptr, tid: nat, owner: Owner)

  function FindSite(sites: seq<Site>, id: Id, i: nat := 0): (k: nat)
    requires i <= |sites|
    ensures i <= k <= |sites| && (k < |sites| ==> sites[k].id == id) && forall j :: i <= j < k ==> sites[j].id != id
    decreases |sites| - i
  {
    if i == |sites| || sites[i].id == id then i else FindSite(sites, id, i + 1)
  }

  /** The first site with ptr on top of its stack. */
  function FindTop(sites: seq<Site>, p: Ptr, i: nat := 0): (k: nat)
    requires i <= |sites|
    ensures i <= k <= |sites| && (k < |sites| ==> OnTop(sites[k], p)) && forall j :: i <= j < k ==> !OnTop(sites[j], p)
    decreases |sites| - i
  {
    if i == |sites| || OnTop(sites[i], p) then i else FindTop(sites, p, i + 1)
  }

  /** The table with a summary for id, unless it is full. */
  function Ensured(sites: seq<Site>, id: Id): seq<Site> {
    if FindSite(sites, id) == |sites| && |sites| < MAX_CALL_SITES then sites + [Fresh(id)] else sites
  }

  function Processed(cfg: Config, sites: seq<Site>, ev: Event): seq<Site> {
    match ev
    case Alloc(site, size, ptr, tid) =>
      if size == 0 || size >= MAX_SIZE then sites
      else
        var t := Ensured(sites, site);
        var k := FindSite(t, site);
        if k == |t| then t else t[k := Allocated(cfg, t[k], size, tid, ptr)]
    case Free(site, ptr, tid, owner) =>
      if ptr == 0 then sites
      else if owner.Managed? then
        var t := Ensured(sites, owner.site);
        var k := FindSite(t, owner.site);
        if k == |t| then t else t[k := Freed(t[k], site, tid, ptr, true)]
      else
        var k := FindTop(sites, ptr);
        if k == |sites| then sites else sites[k := Freed(sites[k], site, tid, ptr, false)]
  }

  function Replay(cfg: Config, events: seq<Event>): seq<Site> {
    if events == [] then []
    else Processed(cfg, Replay(cfg, events[..|events| - 1]), events[|events| - 1])
  }

  function Events(sites: seq<Site>): nat {
    if sites == [] then 0 else Events(sites[..|sites| - 1]) + sites[|sites| - 1].events
  }

  /** The events of sites that ended up compiled. */
  function Captured(sites: seq<Site>): nat {
    if sites == [] then 0
    else Captured(sites[..|sites| - 1]) + if sites[|sites| - 1].phase.Compiled? then sites[|sites| - 1].events else 0
  }

  // ----- oracle replay bounds online replay -----

  /** What every event does alike, whatever the phase. */
  predicate Alike(o: Site, n: Site) {
    o.id == n.id && o.events == n.events && o.frees == n.frees && o.allocs == n.allocs && o.freed == n.freed &&
    o.stack == n.stack && o.pair == n.pair
  }

  /** The oracle's summary is the online one, or it is compiled for good. */
  predicate Bounds(o: Site, n: Site) { Alike(o, n) && (o == n || o.phase.Compiled?) }

  ghost predicate AllBound(o: seq<Site>, n: seq<Site>) {
    |o| == |n| && forall i :: 0 <= i < |o| ==> Bounds(o[i], n[i])
  }

  lemma AllocatedAlike(cfg: Config, s: Site, size: nat, tid: nat, p: Ptr)
    ensures Alike(Allocated(cfg, s, size, tid, p), Counted(s, tid, p))
  {
    hide Stable, Recorded, Pushed, Seen;
  }

  lemma OracleStays(cfg: Config, s: Site, size: nat, tid: nat, p: Ptr)
    requires s.phase.Compiled?
    ensures Allocated(cfg.(oracle := true), s, size, tid, p).phase.Compiled?
  {
    hide Stable, Recorded, Pushed, Seen;
  }

  /** A window's end does not ask which replay it is in. */
  lemma SameAdvance(cfg: Config, s: Site, size: nat, tid: nat, p: Ptr)
    requires !s.phase.Compiled?
    ensures Allocated(cfg.(oracle := true), s, size, tid, p) == Allocated(cfg.(oracle := false), s, size, tid, p)
  {
    hide Stable, Recorded, Pushed, Seen;
  }

  lemma AllocatedBounds(cfg: Config, o: Site, n: Site, size: nat, tid: nat, p: Ptr)
    requires Bounds(o, n)
    ensures Bounds(Allocated(cfg.(oracle := true), o, size, tid, p), Allocated(cfg.(oracle := false), n, size, tid, p))
  {
    hide Allocated, Pushed, Seen;
    if o.phase.Compiled? {
      AllocatedAlike(cfg.(oracle := true), o, size, tid, p);
      AllocatedAlike(cfg.(oracle := false), n, size, tid, p);
      OracleStays(cfg, o, size, tid, p);
    } else {
      SameAdvance(cfg, n, size, tid, p);
    }
  }

  lemma FreedBounds(o: Site, n: Site, freeSite: Id, tid: nat, p: Ptr, managed: bool)
    requires Bounds(o, n)
    ensures Bounds(Freed(o, freeSite, tid, p, managed), Freed(n, freeSite, tid, p, managed))
  {
  }

  lemma {:induction false} FindAlike(o: seq<Site>, n: seq<Site>, id: Id, i: nat)
    requires AllBound(o, n) && i <= |o|
    ensures FindSite(o, id, i) == FindSite(n, id, i)
    decreases |o| - i
  {
    if i < |o| {
      FindAlike(o, n, id, i + 1);
    }
  }

  lemma {:induction false} FindTopAlike(o: seq<Site>, n: seq<Site>, p: Ptr, i: nat)
    requires AllBound(o, n) && i <= |o|
    ensures FindTop(o, p, i) == FindTop(n, p, i)
    decreases |o| - i
  {
    if i < |o| {
      FindTopAlike(o, n, p, i + 1);
    }
  }

  lemma ProcessedBounds(cfg: Config, o: seq<Site>, n: seq<Site>, ev: Event)
    requires AllBound(o, n)
    ensures AllBound(Processed(cfg.(oracle := true), o, ev), Processed(cfg.(oracle := false), n, ev))
  {
    hide Allocated, Freed, Bounds, Ensured, FindSite, FindTop;
    match ev
    case Alloc(site, size, ptr, tid) =>
      FindAlike(o, n, site, 0);
      EnsuredBounds(o, n, site);
      var t, u := Ensured(o, site), Ensured(n, site);
      FindAlike(t, u, site, 0);
      var k := FindSite(t, site);
      if k < |t| {
        AllocatedBounds(cfg, t[k], u[k], size, tid, ptr);
      }
    case Free(site, ptr, tid, owner) =>
      if owner.Managed? {
        FindAlike(o, n, owner.site, 0);
        EnsuredBounds(o, n, owner.site);
        var t, u := Ensured(o, owner.site), Ensured(n, owner.site);
        FindAlike(t, u, owner.site, 0);
        var k := FindSite(t, owner.site);
        if k < |t| {
          FreedBounds(t[k], u[k], site, tid, ptr, true);
        }
      } else {
        FindTopAlike(o, n, ptr, 0);
        var k := FindTop(o, ptr);
        if k < |o| {
          FreedBounds(o[k], n[k], site, tid, ptr, false);
        }
      }
  }

  lemma EnsuredBounds(o: seq<Site>, n: seq<Site>, id: Id)
    requires AllBound(o, n) && FindSite(o, id) == FindSite(n, id)
    ensures AllBound(Ensured(o, id), Ensured(n, id))
  {
  }

  lemma {:induction false} ReplayBounds(cfg: Config, events: seq<Event>)
    ensures AllBound(Replay(cfg.(oracle := true), events), Replay(cfg.(oracle := false), events))
  {
    hide Processed, Bounds;
    if events != [] {
      var r := events[..|events| - 1];
      ReplayBounds(cfg, r);
      ProcessedBounds(cfg, Replay(cfg.(oracle := true), r), Replay(cfg.(oracle := false), r), events[|events| - 1]);
    }
  }

  lemma {:induction false} SumsBound(o: seq<Site>, n: seq<Site>)
    requires AllBound(o, n)
    ensures Events(o) == Events(n) && Captured(o) >= Captured(n)
  {
    if o != [] {
      assert Bounds(o[|o| - 1], n[|n| - 1]);
      SumsBound(o[..|o| - 1], n[..|n| - 1]);
    }
  }

  /** The oracle's captured events bound what the online picker captures, on every trace. */
  lemma OracleIsUpperBound(cfg: Config, events: seq<Event>)
    ensures var o, n := Replay(cfg.(oracle := true), events), Replay(cfg.(oracle := false), events);
            Events(o) == Events(n) && Captured(o) >= Captured(n)
  {
    ReplayBounds(cfg, events);
    SumsBound(Replay(cfg.(oracle := true), events), Replay(cfg.(oracle := false), events));
  }

  // ----- what is captured -----

  /** The summaries in a phase. */
  function Only(sites: seq<Site>, phase: Phase): seq<Site> {
    if sites == [] then []
    else Only(sites[..|sites| - 1], phase) + if sites[|sites| - 1].phase == phase then [sites[|sites| - 1]] else []
  }

  lemma EventsMore(sites: seq<Site>, s: Site)
    ensures Events(sites + [s]) == Events(sites) + s.events && Events(sites + []) == Events(sites)
  {
    assert (sites + [s])[..|sites|] == sites && sites + [] == sites;
  }

  /** The captured events are those of the sites that ended up compiled; the others' are lost. */
  lemma {:induction false} CapturedExactly(sites: seq<Site>)
    ensures Captured(sites) == Events(Only(sites, Compiled))
    ensures Events(sites) - Captured(sites) == Events(Only(sites, PreSpec)) + Events(Only(sites, Deopt))
  {
    hide Events;
    if sites == [] {
      NoEvents();
    } else {
      var r, s := sites[..|sites| - 1], sites[|sites| - 1];
      CapturedExactly(r);
      EventsMore(Only(r, Compiled), s);
      EventsMore(Only(r, PreSpec), s);
      EventsMore(Only(r, Deopt), s);
      EventsMore(r, s);
      assert sites == r + [s];
    }
  }

  lemma NoEvents()
    ensures Events([]) == 0
  {
  }
}
