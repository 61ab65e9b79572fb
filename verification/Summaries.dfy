/** The analyzer as it runs: a table of summaries updated field by field, event by event, proved to
    compute the phase machine's functions. */
module Summaries {
  import opened Histogram
  import opened KsTest
  import opened ThreadDist
  import opened Analyzer

  class Table {
    const cfg: Config
    var sites: seq<Site>

    constructor (cfg: Config)
      ensures sites == [] && this.cfg == cfg
    {
      this.cfg := cfg;
      sites := [];
    }

    /** find_or_create: the position of id's summary, or |sites| when the table is full of others. */
    method FindOrCreate(id: Id) returns (k: nat)
      modifies this
      ensures sites == Ensured(old(sites), id) && k == FindSite(sites, id)
    {
      k := 0;
      while k < |sites|
        invariant 0 <= k <= |sites| && forall j :: 0 <= j < k ==> sites[j].id != id
      {
        if sites[k].id == id {
          assert FindSite(sites, id) == k;
          return;
        }
        k := k + 1;
      }
      assert FindSite(sites, id) == |sites|;
      if |sites| >= MAX_CALL_SITES {
        return;
      }
      sites := sites + [Fresh(id)];
      assert sites[k].id == id && forall j :: 0 <= j < k ==> sites[j].id == old(sites)[j].id;
    }

    method AdvancePrespec(k: nat)
      requires k < |sites|
      modifies this
      ensures sites == old(sites)[k := Advanced(cfg, old(sites)[k])]
    {
      hide Stable;
      var s := sites[k];
      var stable := s.before.count > 0 && Stable(s.now.hist, s.before.hist, cfg.alpha);
      if stable {
        s := s.(stable := s.stable + 1);
        if s.stable >= cfg.bar {
          if s.blacklisted || cfg.traceOnly {
            s := s.(stable := 0);
            s := s.(before := s.now, now := CLEAR, past := s.past + [s.cur], cur := []);
            sites := sites[k := s];
            return;
          }
          s := s.(baseline := s.now.hist);
          if s.events > 0 {
            if 100 * s.frees >= 50 * s.events {
              s := s.(lifetime := Reap);
            } else if 100 * s.frees < 10 * s.events {
              s := s.(lifetime := Hold);
            } else {
              s := s.(lifetime := Unknown);
            }
          }
          s := s.(phase := Compiled);
          if s.firstCompile == 0 {
            s := s.(firstCompile := s.events);
          }
          sites := sites[k := s.(past := s.past + [s.cur], cur := [])];
          return;
        }
      } else {
        s := s.(stable := 0);
      }
      sites := sites[k := s.(before := s.now, now := CLEAR, past := s.past + [s.cur], cur := [])];
    }

    method CheckPostspec(k: nat)
      requires k < |sites|
      modifies this
      ensures sites == old(sites)[k := Checked(cfg, old(sites)[k])]
    {
      hide Stable;
      var s := sites[k];
      if cfg.oracle {
        sites := sites[k := s.(post := CLEAR)];
        return;
      }
      if !Stable(s.post.hist, s.baseline, cfg.alpha) {
        s := s.(phase := Deopt, reason := SizeDrift, stable := 0);
        s := s.(now := CLEAR, before := CLEAR);
      }
      sites := sites[k := s.(post := CLEAR)];
    }

    /** An allocation event for summary k. */
    method CountAlloc(k: nat, size: nat, tid: nat, ptr: Ptr)
      requires k < |sites|
      modifies this
      ensures sites == old(sites)[k := Allocated(cfg, old(sites)[k], size, tid, ptr)]
    {
      hide Stable, Recorded, Seen, Advanced, Checked;
      var s := sites[k];
      s := s.(events := s.events + 1);
      s := s.(allocs := Seen(s.allocs, tid));
      if ptr != 0 {
        s := s.(stack := if |s.stack| < STACK_DEPTH then s.stack + [ptr] else s.stack[1..] + [ptr]);
      }
      if s.phase.Deopt? {
        s := s.(phase := PreSpec, past := [], cur := []);
      }
      if s.phase.PreSpec? {
        s := s.(now := Filled(s.now, size), cur := s.cur + [size]);
        sites := sites[k := s];
        if s.now.count >= cfg.window {
          AdvancePrespec(k);
        }
      } else {
        s := s.(post := Filled(s.post, size));
        sites := sites[k := s];
        if s.post.count >= cfg.window {
          CheckPostspec(k);
        }
      }
    }

    /** A free event for summary k. */
    method CountFree(k: nat, freeSite: Id, tid: nat, ptr: Ptr, managed: bool)
      requires k < |sites|
      modifies this
      ensures sites == old(sites)[k := Freed(old(sites)[k], freeSite, tid, ptr, managed)]
    {
      hide Seen;
      var s := sites[k];
      s := s.(frees := s.frees + 1);
      s := s.(freed := Seen(s.freed, tid));
      if !managed {
        s := s.(pair := Voted(s.pair, freeSite));
        if s.stack != [] && s.stack[|s.stack| - 1] == ptr {
          s := s.(stack := s.stack[..|s.stack| - 1]);
          if s.pair.freeSite == freeSite {
            s := s.(pair := Pair(s.pair.freeSite, s.pair.pairs, s.pair.lifo + 1));
          }
        }
      }
      sites := sites[k := s];
    }

    method ProcessEvent(ev: Event)
      modifies this
      ensures sites == Processed(cfg, old(sites), ev)
    {
      hide Allocated, Freed, Ensured, FindSite;
      match ev
      case Alloc(site, size, ptr, tid) =>
        if size != 0 && size < MAX_SIZE {
          var k := FindOrCreate(site);
          if k < |sites| {
            CountAlloc(k, size, tid, ptr);
          }
        }
      case Free(site, ptr, tid, owner) =>
        if ptr != 0 {
          if owner.Managed? {
            var k := FindOrCreate(owner.site);
            if k < |sites| {
              CountFree(k, site, tid, ptr, true);
            }
          } else {
            var k := TopOwner(ptr);
            if k < |sites| {
              CountFree(k, site, tid, ptr, false);
            }
          }
        }
    }

    /** The first summary whose stack has ptr on top, or |sites|. */
    method TopOwner(ptr: Ptr) returns (k: nat)
      ensures k == FindTop(sites, ptr)
    {
      k := 0;
      while k < |sites| && !OnTop(sites[k], ptr)
        invariant 0 <= k <= |sites| && forall j :: 0 <= j < k ==> !OnTop(sites[j], ptr)
      {
        k := k + 1;
      }
    }

    method ResetCallSite(id: Id, reason: Reason)
      modifies this
      ensures var k := FindSite(old(sites), id);
              sites == if k == |old(sites)| then old(sites) else old(sites)[k := Reset(cfg, old(sites)[k], reason)]
    {
      var k := 0;
      while k < |sites|
        invariant 0 <= k <= |sites| && sites == old(sites) && forall j :: 0 <= j < k ==> sites[j].id != id
      {
        if sites[k].id == id {
          assert FindSite(sites, id) == k;
          var s := sites[k];
          s := s.(deopts := s.deopts + 1);
          if s.deopts >= cfg.limit {
            s := s.(blacklisted := true);
          }
          if reason != Other || s.reason == NoReason {
            s := s.(reason := reason);
          }
          sites := sites[k := s.(phase := Deopt, stable := 0, now := CLEAR, before := CLEAR)];
          return;
        }
        k := k + 1;
      }
      assert FindSite(sites, id) == |sites|;
    }

    /** capturable. */
    method Capturable() returns (total: nat, captured: nat)
      ensures total == Events(sites) && captured == Captured(sites)
    {
      total, captured := 0, 0;
      var i := 0;
      while i < |sites|
        invariant 0 <= i <= |sites| && total == Events(sites[..i]) && captured == Captured(sites[..i])
      {
        assert sites[..i + 1][..i] == sites[..i];
        total := total + sites[i].events;
        if sites[i].phase.Compiled? {
          captured := captured + sites[i].events;
        }
        i := i + 1;
      }
      assert sites[..i] == sites;
    }
  }
}
