/** Every step of the page-retirement system keeps its invariant. */
module EpochSteps {
  import opened Lists
  import opened Epoch

  // ----- frames -----

  /** n's table, generation and sites continue s's, and no page that had left the table is back. */
  ghost predicate Continues(s: State, n: State) {
    s.gen <= n.gen && s.epoch <= n.epoch && s.gone <= n.gone &&
    (forall p :: p in s.site ==> p in n.site && n.site[p] == s.site[p]) &&
    (forall id :: id in s.table ==> id in n.table) &&
    (forall p :: p in s.site && p != Upcoming(s.bg) ==> p != Upcoming(n.bg)) &&
    (forall p :: p in s.site && p != Upcoming(s.bg) && s.Entry(s.site[p]) != p ==> n.Entry(s.site[p]) != p)
  }

  lemma CutFrame(s: State, n: State, p: Page)
    requires Cut(s, p) && Continues(s, n) && n.caches == s.caches
    ensures Cut(n, p)
  {
    forall u | n.Cache(u).fn == p
      ensures n.Cache(u).gen < n.gen
    {
      assert s.Cache(u).fn == p;
    }
  }

  lemma ThreadsFrame(s: State, n: State)
    requires ThreadsOk(s) && Continues(s, n) && n.caches == s.caches
    requires n.pcs == s.pcs && n.epochs == s.epochs && n.registered == s.registered && n.next == s.next
    ensures ThreadsOk(n)
  {
    hide Cut;
    forall u: Tid
      ensures ThreadOk(n, u)
    {
      assert ThreadOk(s, u);
      if s.Pc(u).Queueing? {
        CutFrame(s, n, s.Pc(u).page);
      }
    }
  }

  lemma GoneFrame(s: State, n: State)
    requires GoneOk(s) && Continues(s, n) && n.caches == s.caches
    ensures forall p :: p in s.gone ==> Cut(n, p)
  {
    hide Cut, Continues;
    forall p | p in s.gone
      ensures Cut(n, p)
    {
      CutFrame(s, n, p);
    }
  }

  /** Nothing about holders, epochs and pending pages changes. */
  ghost predicate SamePages(s: State, n: State) {
    n.pcs == s.pcs && n.epochs == s.epochs && n.registered == s.registered && n.pending == s.pending &&
    s.gone <= n.gone && s.epoch <= n.epoch
  }

  lemma BehindFrame(s: State, n: State, min: nat, rest: seq<Tid>)
    requires Behind(s, min, rest) && SamePages(s, n)
    ensures Behind(n, min, rest)
  {
    forall i, u | 0 <= i < |n.pending| && n.pending[i].epoch < min && u in n.registered &&
                  Holds(n.Pc(u)) == n.pending[i].page
      ensures u in rest
    {
      assert Holds(s.Pc(u)) == s.pending[i].page;
    }
  }

  lemma PagesFrame(s: State, n: State)
    requires PendingOk(s) && MappedOk(s) && NodesOk(s) && ScanOk(s) && SamePages(s, n)
    requires n.site == s.site && n.mapped == s.mapped && n.next == s.next && n.head == s.head
    requires n.nodes == s.nodes && n.bg == s.bg
    ensures PendingOk(n) && MappedOk(n) && NodesOk(n) && ScanOk(n)
  {
    hide Chain, Distinct, Behind, PendingOk, MappedOk;
    PendingFrame(s, n);
    MappedFrame(s, n);
    match s.bg
    case Reading(min, at, rest) => BehindFrame(s, n, min, rest);
    case Stepping(min, at, rest) => BehindFrame(s, n, min, rest[1..]);
    case Sweeping(min, i, out) => BehindFrame(s, n, min, []);
    case _ =>
  }

  // ----- one thread moves -----

  lemma MovesThreads(s: State, t: Tid, pc: Pc)
    requires ThreadsOk(s) && ThreadOk(s.Goto(t, pc), t)
    ensures ThreadsOk(s.Goto(t, pc))
  {
    hide Cut;
    var n := s.Goto(t, pc);
    forall u: Tid
      ensures ThreadOk(n, u)
    {
      assert ThreadOk(s, u);
      if s.Pc(u).Queueing? {
        CutFrame(s, n, s.Pc(u).page);
      }
    }
  }

  lemma MovesGone(s: State, t: Tid, pc: Pc)
    requires GoneOk(s)
    ensures GoneOk(s.Goto(t, pc))
  {
    hide Cut;
    forall p | p in s.gone
      ensures Cut(s.Goto(t, pc), p)
    {
      CutFrame(s, s.Goto(t, pc), p);
    }
  }

  lemma MovesPending(s: State, t: Tid, pc: Pc)
    requires PendingOk(s) && (Holds(pc) in s.gone ==> Holds(pc) == Holds(s.Pc(t)))
    ensures PendingOk(s.Goto(t, pc))
  {
    var n := s.Goto(t, pc);
    forall i, u | 0 <= i < |n.pending| && Holds(n.Pc(u)) == n.pending[i].page
      ensures n.Epoch(u) <= n.pending[i].epoch
    {
      assert s.pending[i].page in s.gone;
      assert Holds(s.Pc(u)) == s.pending[i].page;
    }
  }

  lemma MovesMapped(s: State, t: Tid, pc: Pc)
    requires MappedOk(s) && (Holds(pc) in s.gone ==> Holds(pc) == Holds(s.Pc(t)))
    ensures MappedOk(s.Goto(t, pc))
  {
    var n := s.Goto(t, pc);
    forall p | p in n.site && p !in n.mapped
      ensures p in n.gone && forall u :: u in n.registered ==> Holds(n.Pc(u)) != p
    {
      forall u | u in n.registered
        ensures Holds(n.Pc(u)) != p
      {
        assert Holds(s.Pc(u)) != p;
      }
    }
  }

  lemma MovesBehind(s: State, t: Tid, pc: Pc, min: nat, rest: seq<Tid>)
    requires PendingOk(s) && Behind(s, min, rest)
    requires Holds(pc) in s.gone ==> Holds(pc) == Holds(s.Pc(t))
    ensures Behind(s.Goto(t, pc), min, rest)
  {
    var n := s.Goto(t, pc);
    forall i, u | 0 <= i < |n.pending| && n.pending[i].epoch < min && u in n.registered &&
                  Holds(n.Pc(u)) == n.pending[i].page
      ensures u in rest
    {
      assert s.pending[i].page in s.gone;
      assert Holds(s.Pc(u)) == s.pending[i].page;
    }
  }

  lemma MovesScan(s: State, t: Tid, pc: Pc)
    requires PendingOk(s) && ScanOk(s) && (Holds(pc) in s.gone ==> Holds(pc) == Holds(s.Pc(t)))
    ensures ScanOk(s.Goto(t, pc))
  {
    hide PendingOk, Behind, Holds, Chain, Distinct;
    match s.bg
    case Reading(min, at, rest) => MovesBehind(s, t, pc, min, rest);
    case Stepping(min, at, rest) => MovesBehind(s, t, pc, min, rest[1..]);
    case Sweeping(min, i, out) => MovesBehind(s, t, pc, min, []);
    case _ =>
  }

  /** A thread may move anywhere its own invariant allows, as long as it does not thereby come to
      hold a page that was handed to the queue. */
  lemma Moves(s: State, t: Tid, pc: Pc)
    requires Inv(s) && ThreadOk(s.Goto(t, pc), t)
    requires Holds(pc) in s.gone ==> Holds(pc) == Holds(s.Pc(t))
    ensures Inv(s.Goto(t, pc))
  {
    hide ThreadOk, ThreadsOk, GoneOk, PendingOk, MappedOk, ScanOk, Cut, Chain, Distinct;
    MovesThreads(s, t, pc);
    MovesGone(s, t, pc);
    MovesPending(s, t, pc);
    MovesMapped(s, t, pc);
    MovesScan(s, t, pc);
  }

  // ----- the allocator's steps -----

  lemma StartsCall(s: State, t: Tid, id: Id)
    requires Inv(s) && Enabled(s, Call(t, id))
    ensures Inv(DoCall(s, t, id))
  {
    hide Chain, Distinct, Cut, TableOk, GoneOk, PendingOk, MappedOk, NodesOk, ScanOk, ThreadsOk;
    var n := s.(calls := s.calls[t := s.Calls(t) + 1]);
    CallsFrame(s, n);
    assert ThreadOk(n, t) by { InvThread(n, t); }
    Moves(n, t, if (s.Calls(t) + 1) % 32 != 0 then GenLoad(id)
                else if t in s.registered then EpochLoad(id) else RegLoad(id));
  }

  lemma InvThread(s: State, t: Tid)
    requires Inv(s)
    ensures ThreadOk(s, t)
  {
  }

  lemma CallsFrame(s: State, n: State)
    requires Inv(s) && n == s.(calls := n.calls)
    ensures Inv(n)
  {
    hide ThreadsOk, Cut, PendingOk, MappedOk, NodesOk, ScanOk;
    ThreadsFrame(s, n);
    GoneFrame(s, n);
    PagesFrame(s, n);
  }

  predicate Inside(pc: Pc) { pc.In? || pc.Reverting? || pc.Bumping? || pc.Queueing? || pc.Leaving? }

  /** Loading a word and going on: registration and safe points, and leaving a page. */
  lemma Proceeds(s: State, t: Tid, pc: Pc)
    requires Inv(s) && !Inside(pc) && !pc.RegSwap?
    requires pc.RegLoad? || pc.RegLink? ==> s.Pc(t).RegLoad? || s.Pc(t).RegLink? || s.Pc(t).RegSwap?
    requires pc.EpochStore? ==> pc.v <= s.epoch
    requires pc.Looking? ==> pc.gen <= s.gen
    requires !pc.Outside? ==> !s.Pc(t).Outside?
    ensures Inv(s.Goto(t, pc))
  {
    hide TableOk, GoneOk, PendingOk, MappedOk, NodesOk, ScanOk, ThreadsOk, Cut;
    InvThread(s, t);
    ZeroIsNotGone(s);
    Moves(s, t, pc);
  }

  lemma ZeroIsNotGone(s: State)
    requires Inv(s)
    ensures 0 !in s.gone
  {
    hide PendingOk, MappedOk, NodesOk, ScanOk, ThreadsOk;
    assert forall p :: p in s.gone ==> p in s.site;
  }

  lemma WritesNext(s: State, t: Tid, id: Id, head: Tid)
    requires Inv(s) && s.Pc(t) == RegLink(id, head)
    ensures Inv(s.(next := s.next[t := head]).Goto(t, RegSwap(id, head)))
  {
    hide TableOk, GoneOk, PendingOk, MappedOk, NodesOk, ScanOk, ThreadsOk, Cut, Chain, Distinct;
    InvThread(s, t);
    var n := s.(next := s.next[t := head]);
    NextFrame(s, n, t);
    InvThread(n, t);
    ZeroIsNotGone(n);
    Moves(n, t, RegSwap(id, head));
  }

  lemma NextFrame(s: State, n: State, t: Tid)
    requires Inv(s) && t !in s.registered && !s.Pc(t).RegSwap? && n == s.(next := n.next)
    requires forall u :: u != t && u in s.next ==> u in n.next && n.next[u] == s.next[u]
    ensures Inv(n)
  {
    hide Chain, Distinct, Cut, Behind;
    forall u: Tid
      ensures ThreadOk(n, u)
    {
      assert ThreadOk(s, u);
      if s.Pc(u).Queueing? {
        CutFrame(s, n, s.Pc(u).page);
      }
    }
    GoneFrame(s, n);
    ChainFrame(s.next, n.next, s.head, s.nodes);
    PendingFrame(s, n);
    MappedFrame(s, n);
    match s.bg
    case Reading(min, at, rest) => ChainFrame(s.next, n.next, at, rest); BehindFrame(s, n, min, rest);
    case Stepping(min, at, rest) => ChainFrame(s.next, n.next, at, rest); BehindFrame(s, n, min, rest[1..]);
    case Sweeping(min, i, out) => BehindFrame(s, n, min, []);
    case _ =>
  }

  lemma PendingFrame(s: State, n: State)
    requires PendingOk(s) && SamePages(s, n)
    ensures PendingOk(n)
  {
    forall i, u | 0 <= i < |n.pending| && Holds(n.Pc(u)) == n.pending[i].page
      ensures n.Epoch(u) <= n.pending[i].epoch
    {
      assert Holds(s.Pc(u)) == s.pending[i].page;
    }
  }

  lemma MappedFrame(s: State, n: State)
    requires MappedOk(s) && n.pcs == s.pcs && n.registered == s.registered && s.gone <= n.gone
    requires forall p :: p in n.site && p !in n.mapped ==> p in s.site && p !in s.mapped
    ensures MappedOk(n)
  {
    forall p, u | p in n.site && p !in n.mapped && u in n.registered
      ensures Holds(n.Pc(u)) != p
    {
      assert Holds(s.Pc(u)) != p;
    }
  }

  /** A thread joins the list holding nothing. */
  lemma Registers(s: State, t: Tid, id: Id, head: Tid, spurious: bool)
    requires Inv(s) && s.Pc(t) == RegSwap(id, head)
    ensures Inv(DoSwapHead(s, t, id, head, spurious))
  {
    hide TableOk, GoneOk, PendingOk, MappedOk, NodesOk, ScanOk, ThreadsOk, Cut, Chain, Distinct;
    if s.head == head && !spurious {
      InvThread(s, t);
      var m := s.Goto(t, GenLoad(id));
      Proceeds(s, t, GenLoad(id));
      var n := m.(head := t, nodes := [t] + m.nodes, registered := m.registered + {t});
      Joined(m, t);
      Proceeds(n, t, EpochLoad(id));
      assert m.pcs[t := EpochLoad(id)] == s.pcs[t := EpochLoad(id)];
      assert n.Goto(t, EpochLoad(id)) == DoSwapHead(s, t, id, head, spurious);
    } else {
      Proceeds(s, t, RegLink(id, s.head));
    }
  }

  lemma Joined(s: State, t: Tid)
    requires Inv(s) && t != 0 && t !in s.registered && s.Pc(t).GenLoad?
    requires t in s.next && s.next[t] == s.head
    ensures Inv(s.(head := t, nodes := [t] + s.nodes, registered := s.registered + {t}))
  {
    hide Chain, Distinct, Cut;
    var n := s.(head := t, nodes := [t] + s.nodes, registered := s.registered + {t});
    assert NodesOk(n) by {
      ChainPush(s.next, s.head, s.nodes, t);
    }
    ZeroIsNotGone(s);
    JoinedThreads(s, t, n);
    GoneFrame(s, n);
    forall i, u | 0 <= i < |n.pending| && Holds(n.Pc(u)) == n.pending[i].page
      ensures n.Epoch(u) <= n.pending[i].epoch
    {
      assert Holds(s.Pc(u)) == s.pending[i].page;
    }
    forall p, u | p in n.site && p !in n.mapped && u in n.registered
      ensures Holds(n.Pc(u)) != p
    {
      assert u != t ==> Holds(s.Pc(u)) != p;
    }
    assert ScanOk(n) by { JoinedScan(s, t, n); }
  }

  lemma JoinedThreads(s: State, t: Tid, n: State)
    requires ThreadsOk(s) && s.Pc(t).GenLoad?
    requires n == s.(head := t, nodes := [t] + s.nodes, registered := s.registered + {t})
    ensures ThreadsOk(n)
  {
    hide Cut;
    forall u: Tid
      ensures ThreadOk(n, u)
    {
      assert ThreadOk(s, u);
      if s.Pc(u).Queueing? {
        CutFrame(s, n, s.Pc(u).page);
      }
    }
  }

  lemma JoinedScan(s: State, t: Tid, n: State)
    requires ScanOk(s) && PendingOk(s) && 0 !in s.gone && s.Pc(t).GenLoad?
    requires n == s.(head := t, nodes := [t] + s.nodes, registered := s.registered + {t})
    ensures ScanOk(n)
  {
    hide Chain, Distinct;
    forall min, rest | Behind(s, min, rest)
      ensures Behind(n, min, rest)
    {
      forall i, u | 0 <= i < |n.pending| && n.pending[i].epoch < min && u in n.registered &&
                    Holds(n.Pc(u)) == n.pending[i].page
        ensures u in rest
      {
        assert s.pending[i].page in s.gone;
        assert u != t;
        assert u in s.registered;
      }
    }
  }

  /** A safe point: a thread that holds nothing publishes an epoch it has seen. */
  lemma PublishesEpoch(s: State, t: Tid, id: Id, v: nat)
    requires Inv(s) && s.Pc(t) == EpochStore(id, v)
    ensures Inv(s.(epochs := s.epochs[t := v]).Goto(t, GenLoad(id)))
  {
    hide TableOk, GoneOk, PendingOk, MappedOk, NodesOk, ScanOk, ThreadsOk, Cut, Chain, Distinct;
    InvThread(s, t);
    ZeroIsNotGone(s);
    var n := s.(epochs := s.epochs[t := v]);
    EpochsFrame(s, n, t);
    Proceeds(n, t, GenLoad(id));
  }

  lemma EpochsFrame(s: State, n: State, t: Tid)
    requires Inv(s) && n == s.(epochs := n.epochs) && n.Epoch(t) <= n.epoch && Holds(s.Pc(t)) == 0
    requires forall u :: u != t ==> n.Epoch(u) == s.Epoch(u)
    requires 0 !in s.gone
    ensures Inv(n)
  {
    hide Chain, Distinct, Cut, Behind;
    forall u: Tid
      ensures ThreadOk(n, u)
    {
      assert ThreadOk(s, u);
      if s.Pc(u).Queueing? {
        CutFrame(s, n, s.Pc(u).page);
      }
    }
    GoneFrame(s, n);
    forall i, u | 0 <= i < |n.pending| && Holds(n.Pc(u)) == n.pending[i].page
      ensures n.Epoch(u) <= n.pending[i].epoch
    {
      assert s.pending[i].page in s.gone;
      assert Holds(s.Pc(u)) == s.pending[i].page;
    }
    forall p, u | p in n.site && p !in n.mapped && u in n.registered
      ensures Holds(n.Pc(u)) != p
    {
      assert Holds(s.Pc(u)) != p;
    }
    EpochsScan(s, n);
  }

  lemma EpochsScan(s: State, n: State)
    requires ScanOk(s) && n == s.(epochs := n.epochs)
    ensures ScanOk(n)
  {
    hide Chain, Distinct, Rest;
    forall min, rest | Behind(s, min, rest)
      ensures Behind(n, min, rest)
    {
      forall i, u | 0 <= i < |n.pending| && n.pending[i].epoch < min && u in n.registered &&
                    Holds(n.Pc(u)) == n.pending[i].page
        ensures u in rest
      {
        assert Holds(s.Pc(u)) == s.pending[i].page;
      }
    }
    match s.bg
    case Reading(min, at, rest) => RestFrame(s, n, at, rest);
    case Stepping(min, at, rest) => RestFrame(s, n, at, rest);
    case _ =>
  }

  lemma RestFrame(s: State, n: State, at: Tid, rest: seq<Tid>)
    requires Rest(s, at, rest) && n.next == s.next && n.registered == s.registered
    ensures Rest(n, at, rest)
  {
    hide Chain, Distinct;
  }

  /** A routine found through the cache or the table was not handed to the queue. */
  lemma NotCut(s: State, p: Page, t: Tid)
    requires Inv(s) && p in s.gone
    ensures s.Cache(t).fn == p ==> s.Cache(t).gen < s.gen
    ensures forall id :: s.Entry(id) != p
  {
    hide PendingOk, MappedOk, NodesOk, ScanOk, ThreadsOk, ThreadOk;
    assert Cut(s, p);
  }

  lemma ChecksCache(s: State, t: Tid, id: Id)
    requires Inv(s) && s.Pc(t) == GenLoad(id)
    ensures Inv(DoLoadGen(s, t, id))
  {
    hide TableOk, GoneOk, PendingOk, MappedOk, NodesOk, ScanOk, ThreadsOk, Cut, Chain, Distinct;
    InvThread(s, t);
    ZeroIsNotGone(s);
    var c := s.Cache(t);
    if id == c.id && s.gen == c.gen {
      if c.fn in s.gone {
        NotCut(s, c.fn, t);
        assert false;
      }
      Acquires(s, t, c.fn);
    } else {
      Proceeds(s, t, Looking(id, s.gen));
    }
  }

  lemma Acquires(s: State, t: Tid, fn: Page)
    requires Inv(s) && !s.Pc(t).Outside? && fn !in s.gone && (fn != 0 ==> Known(s, fn))
    ensures Inv(s.Goto(t, Dispatch(fn)))
  {
    hide TableOk, GoneOk, PendingOk, MappedOk, NodesOk, ScanOk, ThreadsOk, Cut, Chain, Distinct;
    InvThread(s, t);
    ZeroIsNotGone(s);
    Moves(s, t, Dispatch(fn));
  }

  lemma FillsCache(s: State, t: Tid, id: Id, gen: nat)
    requires Inv(s) && s.Pc(t) == Looking(id, gen)
    ensures Inv(DoLookup(s, t, id, gen))
  {
    hide TableOk, GoneOk, PendingOk, MappedOk, NodesOk, ScanOk, ThreadsOk, Cut, Chain, Distinct;
    InvThread(s, t);
    ZeroIsNotGone(s);
    var fn := s.Entry(id);
    if fn in s.gone {
      NotCut(s, fn, t);
      assert false;
    }
    EntryKnown(s, id);
    var n := s.(caches := s.caches[t := Cached(id, fn, gen)]);
    CachesFrame(s, n, t);
    Acquires(n, t, fn);
  }

  lemma EntryKnown(s: State, id: Id)
    requires Inv(s)
    ensures s.Entry(id) != 0 ==> Known(s, s.Entry(id)) && s.site[s.Entry(id)] == id
  {
    hide GoneOk, PendingOk, MappedOk, NodesOk, ScanOk, ThreadsOk;
  }

  lemma CachesFrame(s: State, n: State, t: Tid)
    requires Inv(s) && n == s.(caches := n.caches) && s.Pc(t).Looking?
    requires forall u :: u != t ==> n.Cache(u) == s.Cache(u)
    requires n.Cache(t).gen <= s.gen && n.Cache(t).fn !in s.gone && (n.Cache(t).fn != 0 ==> Known(s, n.Cache(t).fn))
    requires n.Cache(t).fn != 0 ==> s.Entry(s.site[n.Cache(t).fn]) == n.Cache(t).fn
    requires 0 !in s.gone
    ensures Inv(n)
  {
    hide PendingOk, MappedOk, NodesOk, ScanOk, Chain, Distinct;
    forall p | Cut(s, p) && p != 0
      ensures Cut(n, p)
    {
      forall u | n.Cache(u).fn == p
        ensures n.Cache(u).gen < n.gen
      {
        assert u != t;
      }
    }
    assert ThreadsOk(n) by {
      hide Cut;
      forall u: Tid
        ensures ThreadOk(n, u)
      {
        assert ThreadOk(s, u);
      }
    }
    PagesFrame(s, n);
  }

  // ----- the deopt path -----

  lemma FailsGuard(s: State, t: Tid, page: Page)
    requires Inv(s) && s.Pc(t) == In(page)
    ensures Inv(s.Goto(t, if s.enabled then Reverting(page) else Leaving(page)))
  {
    hide TableOk, GoneOk, PendingOk, MappedOk, NodesOk, ScanOk, ThreadsOk, Cut;
    InvThread(s, t);
    Moves(s, t, if s.enabled then Reverting(page) else Leaving(page));
  }

  lemma ClearsEntry(s: State, t: Tid, page: Page)
    requires Inv(s) && s.Pc(t) == Reverting(page) && page in s.site
    ensures Inv(DoClear(s, t, page))
  {
    hide TableOk, GoneOk, PendingOk, MappedOk, NodesOk, ScanOk, ThreadsOk, Cut;
    InvThread(s, t);
    var n := s.(table := s.table[s.site[page] := 0]);
    ClearedFrame(s, n, s.site[page]);
    InvThread(n, t);
    Moves(n, t, Bumping(page));
  }

  lemma ClearedFrame(s: State, n: State, id: Id)
    requires Inv(s) && id in s.table && n == s.(table := s.table[id := 0])
    ensures Inv(n)
  {
    hide ThreadsOk, PendingOk, MappedOk, NodesOk, ScanOk, Cut;
    ThreadsFrame(s, n);
    GoneFrame(s, n);
    PagesFrame(s, n);
  }

  lemma GenFrame(s: State, n: State)
    requires Inv(s) && n == s.(gen := n.gen) && n.gen >= s.gen
    ensures Inv(n)
  {
    hide ThreadsOk, PendingOk, MappedOk, NodesOk, ScanOk, Cut;
    ThreadsFrame(s, n);
    GoneFrame(s, n);
    PagesFrame(s, n);
  }

  /** Once the generation is bumped, the page that was cleared before is cut off. */
  lemma BumpsGen(s: State, t: Tid, page: Page)
    requires Inv(s) && s.Pc(t) == Bumping(page)
    ensures Inv(s.(gen := s.gen + 1).Goto(t, Queueing(page)))
  {
    hide TableOk, GoneOk, PendingOk, MappedOk, NodesOk, ScanOk, ThreadsOk;
    InvThread(s, t);
    var n := s.(gen := s.gen + 1);
    GenFrame(s, n);
    InvThread(n, t);
    forall u | n.Cache(u).fn == page
      ensures n.Cache(u).gen < n.gen
    {
      InvThread(s, u);
    }
    CutFrame(n, n.Goto(t, Queueing(page)), page);
    Moves(n, t, Queueing(page));
  }

  lemma EnqueuesPage(s: State, t: Tid, page: Page)
    requires Inv(s) && s.Pc(t) == Queueing(page)
    ensures Inv(DoEnqueue(s, t, page))
  {
    hide TableOk, GoneOk, PendingOk, MappedOk, NodesOk, ScanOk, ThreadsOk, Cut;
    InvThread(s, t);
    var n := s.(queue := if |s.queue| < QUEUE_CAP then s.queue + [page] else s.queue, gone := s.gone + {page});
    QueueFrame(s, n, page);
    InvThread(n, t);
    Moves(n, t, Leaving(page));
  }

  lemma QueueFrame(s: State, n: State, page: Page)
    requires Inv(s) && Cut(s, page) && n == s.(queue := n.queue, gone := s.gone + {page})
    requires n.queue == s.queue || n.queue == s.queue + [page]
    ensures Inv(n)
  {
    hide ThreadsOk, PendingOk, MappedOk, NodesOk, ScanOk;
    ThreadsFrame(s, n);
    GoneFrame(s, n);
    PagesFrame(s, n);
    CutFrame(s, n, page);
  }

  // ----- the background thread -----

  /** The background thread moves on without touching the table. */
  lemma Background(s: State, n: State)
    requires Inv(s) && n == s.(bg := n.bg, queue := n.queue) && ScanOk(n)
    requires Upcoming(n.bg) == Upcoming(s.bg) == 0
    requires forall p :: p in n.queue ==> p in s.queue
    requires n.bg.Retiring? ==> n.bg.page in s.gone
    ensures Inv(n)
  {
    hide ThreadsOk, PendingOk, MappedOk, ScanOk, Cut, Chain, Distinct;
    ThreadsFrame(s, n);
    GoneFrame(s, n);
    PendingFrame(s, n);
    MappedFrame(s, n);
  }

  lemma Emits(s: State, id: Id, page: Page)
    requires Inv(s) && s.bg.Resting? && page != 0 && page !in s.site
    ensures Inv(s.(site := s.site[page := id], mapped := s.mapped + {page}, bg := Claiming(id, page)))
  {
    hide ThreadsOk, PendingOk, MappedOk, Cut, Chain, Distinct;
    var n := s.(site := s.site[page := id], mapped := s.mapped + {page}, bg := Claiming(id, page));
    ThreadsFrame(s, n);
    GoneFrame(s, n);
    PendingFrame(s, n);
    MappedFrame(s, n);
  }

  lemma Claims(s: State)
    requires Inv(s) && s.bg.Claiming?
    ensures Inv(s.(table := s.table[s.bg.id := s.Entry(s.bg.id)], bg := Installing(s.bg.id, s.bg.page)))
  {
    hide ThreadsOk, PendingOk, MappedOk, Cut, Chain, Distinct;
    var n := s.(table := s.table[s.bg.id := s.Entry(s.bg.id)], bg := Installing(s.bg.id, s.bg.page));
    ThreadsFrame(s, n);
    GoneFrame(s, n);
    PendingFrame(s, n);
    MappedFrame(s, n);
  }

  lemma StoresRoutine(s: State)
    requires Inv(s) && s.bg.Installing?
    ensures Inv(s.(table := s.table[s.bg.id := s.bg.page], bg := Announcing))
  {
    hide ThreadsOk, PendingOk, MappedOk, Chain, Distinct;
    var n := s.(table := s.table[s.bg.id := s.bg.page], bg := Announcing);
    ThreadsFrame(s, n);
    GoneFrame(s, n);
    PendingFrame(s, n);
    MappedFrame(s, n);
    assert s.bg.page !in s.gone;
  }

  lemma Announces(s: State)
    requires Inv(s) && s.bg.Announcing?
    ensures Inv(s.(gen := s.gen + 1, bg := Resting))
  {
    hide TableOk, GoneOk, ThreadsOk, PendingOk, MappedOk, NodesOk, Cut, Chain, Distinct;
    var n := s.(gen := s.gen + 1);
    GenFrame(s, n);
    Background(n, n.(bg := Resting));
  }

  lemma Dequeues(s: State)
    requires Inv(s) && s.bg.Draining?
    ensures Inv(DoDequeue(s))
  {
    hide Inv;
    if s.queue != [] {
      TakesFirst(s);
    } else {
      Turns(s, if s.pending == [] then Resting else MinLoad);
    }
  }

  lemma TakesFirst(s: State)
    requires Inv(s) && s.bg.Draining? && s.queue != []
    ensures Inv(s.(queue := s.queue[1..], bg := Retiring(s.queue[0])))
  {
    hide TableOk, ThreadsOk, PendingOk, MappedOk, NodesOk, Cut, Chain, Distinct;
    Background(s, s.(queue := s.queue[1..], bg := Retiring(s.queue[0])));
  }

  /** The epoch a page is retired at is no older than any thread's. */
  lemma Retires(s: State, page: Page)
    requires Inv(s) && s.bg == Retiring(page)
    ensures Inv(DoRetire(s, page))
  {
    hide Cut, Chain, Distinct, MappedOk;
    var n := DoRetire(s, page);
    ThreadsFrame(s, n);
    GoneFrame(s, n);
    MappedFrame(s, n);
    forall i, u | 0 <= i < |n.pending| && Holds(n.Pc(u)) == n.pending[i].page
      ensures n.Epoch(u) <= n.pending[i].epoch
    {
      assert ThreadOk(s, u);
      if i < |s.pending| {
        assert Holds(s.Pc(u)) == s.pending[i].page;
      }
    }
  }

  /** The scan starts at the list's head, behind which is every registered thread. */
  lemma StartsScan(s: State, min: nat)
    requires Inv(s) && s.bg == HeadLoad(min)
    ensures Inv(s.(bg := ScanFrom(min, s.head, s.nodes)))
  {
    hide TableOk, GoneOk, ThreadsOk, PendingOk, MappedOk, Cut, Chain, Distinct, Holds;
    ChainEnds(s.next, s.head, s.nodes);
    Background(s, s.(bg := ScanFrom(min, s.head, s.nodes)));
  }

  /** A thread whose epoch was read holds no page older than the minimum so far. */
  lemma ReadsEpoch(s: State, min: nat, at: Tid, rest: seq<Tid>)
    requires Inv(s) && s.bg == Reading(min, at, rest)
    ensures Inv(s.(bg := Stepping(Least(min, s.Epoch(at)), at, rest)))
  {
    hide TableOk, GoneOk, ThreadsOk, MappedOk, NodesOk, Cut, Chain, Distinct, Holds;
    var lower := Least(min, s.Epoch(at));
    var n := s.(bg := Stepping(lower, at, rest));
    RestHead(s, at, rest);
    forall i, u | 0 <= i < |s.pending| && s.pending[i].epoch < lower && u in s.registered &&
                  Holds(s.Pc(u)) == s.pending[i].page
      ensures u in rest[1..]
    {
      assert u in rest && u != at;
    }
    Background(s, n);
  }

  lemma RestHead(s: State, at: Tid, rest: seq<Tid>)
    requires Rest(s, at, rest)
    ensures rest != [] && at == rest[0] && s.Next(at) == Nth(rest, 1) && Chain(s.next, s.Next(at), rest[1..])
    ensures Distinct(rest[1..]) && (s.Next(at) == 0 <==> rest[1..] == [])
  {
    ChainPop(s.next, at, rest);
    ChainEnds(s.next, s.Next(at), rest[1..]);
  }

  lemma FollowsList(s: State, min: nat, at: Tid, rest: seq<Tid>)
    requires Inv(s) && s.bg == Stepping(min, at, rest)
    ensures Inv(s.(bg := ScanFrom(min, s.Next(at), Tail(rest))))
  {
    hide TableOk, GoneOk, ThreadsOk, PendingOk, MappedOk, NodesOk, Cut, Chain, Distinct, Holds;
    RestHead(s, at, rest);
    var n := s.(bg := ScanFrom(min, s.Next(at), Tail(rest)));
    assert Behind(n, min, rest[1..]) by { BehindFrame(s, n, min, rest[1..]); }
    Background(s, n);
  }

  /** Only entries of s are pending in n. */
  lemma PendingSubset(s: State, n: State)
    requires PendingOk(s) && n.pcs == s.pcs && n.epochs == s.epochs && n.gone == s.gone && n.epoch == s.epoch
    requires forall e :: e in n.pending ==> e in s.pending
    ensures PendingOk(n)
  {
    forall i | 0 <= i < |n.pending|
      ensures n.pending[i].page in n.gone && n.pending[i].epoch < n.epoch
      ensures forall u :: Holds(n.Pc(u)) == n.pending[i].page ==> n.Epoch(u) <= n.pending[i].epoch
    {
      assert n.pending[i] in s.pending;
      var j :| 0 <= j < |s.pending| && s.pending[j] == n.pending[i];
      forall u | Holds(n.Pc(u)) == n.pending[i].page
        ensures n.Epoch(u) <= n.pending[i].epoch
      {
        assert Holds(s.Pc(u)) == s.pending[j].page;
      }
    }
  }

  lemma BehindSubset(s: State, n: State, min: nat)
    requires Behind(s, min, []) && n.pcs == s.pcs && n.registered == s.registered
    requires forall e :: e in n.pending ==> e in s.pending
    ensures Behind(n, min, [])
  {
    forall i, u | 0 <= i < |n.pending| && n.pending[i].epoch < min && u in n.registered
      ensures Holds(n.Pc(u)) != n.pending[i].page
    {
      assert n.pending[i] in s.pending;
      var j :| 0 <= j < |s.pending| && s.pending[j] == n.pending[i];
      Unheld(s, min, j, u);
    }
  }

  lemma Unheld(s: State, min: nat, i: nat, u: Tid)
    requires Behind(s, min, []) && i < |s.pending| && s.pending[i].epoch < min && u in s.registered
    ensures Holds(s.Pc(u)) != s.pending[i].page
  {
  }

  lemma SweepFrame(s: State, n: State)
    requires Inv(s) && n == s.(pending := n.pending, mapped := n.mapped, bg := n.bg)
    requires s.bg.Sweeping? && (n.bg.Sweeping? || n.bg.Resting?) && PendingOk(n) && MappedOk(n) && ScanOk(n)
    ensures Inv(n)
  {
    hide PendingOk, MappedOk, ThreadsOk, Cut, Chain, Distinct, Behind, ScanOk;
    ThreadsFrame(s, n);
    GoneFrame(s, n);
  }

  lemma Taken<T>(q: seq<T>, k: nat)
    requires k <= |q|
    ensures forall e :: e in q[..k] ==> e in q
  {
  }

  lemma Replaced<T>(q: seq<T>, k: nat, i: nat)
    requires k < |q| && i < |q|
    ensures forall e :: e in q[k := q[i]] ==> e in q
  {
  }

  lemma Drops(s: State, min: nat, i: nat, out: nat)
    requires Inv(s) && s.bg == Sweeping(min, i, out) && i < |s.pending| && s.pending[i].epoch < min
    ensures Inv(s.(mapped := s.mapped - {s.pending[i].page}, bg := Sweeping(min, i + 1, out)))
  {
    hide TableOk, GoneOk, NodesOk, PendingOk, MappedOk, ThreadsOk, Behind, Rest;
    var n := s.(mapped := s.mapped - {s.pending[i].page}, bg := Sweeping(min, i + 1, out));
    PendingSubset(s, n);
    BehindSubset(s, n, min);
    Unmaps(s, n, min, i);
    SweepFrame(s, n);
  }

  lemma Shrinks(s: State, n: State, min: nat)
    requires Inv(s) && s.bg.Sweeping? && s.bg.min == min && n == s.(pending := n.pending, bg := n.bg)
    requires n.bg.Resting? || (n.bg.Sweeping? && n.bg.min == min && n.bg.out <= n.bg.i <= |n.pending|)
    requires forall e :: e in n.pending ==> e in s.pending
    ensures Inv(n)
  {
    hide TableOk, GoneOk, NodesOk, PendingOk, MappedOk, ThreadsOk, Behind, Rest;
    PendingSubset(s, n);
    BehindSubset(s, n, min);
    MappedFrame(s, n);
    SweepFrame(s, n);
  }

  /** The sweep unmaps a page no registered thread holds, or keeps an entry. */
  lemma Sweeps(s: State, min: nat, i: nat, out: nat)
    requires Inv(s) && s.bg == Sweeping(min, i, out)
    ensures Inv(DoSweep(s, min, i, out))
  {
    hide TableOk, GoneOk, NodesOk, PendingOk, MappedOk, ThreadsOk, Behind, Rest;
    if i >= |s.pending| {
      Taken(s.pending, out);
      Shrinks(s, DoSweep(s, min, i, out), min);
    } else if s.pending[i].epoch < min {
      Drops(s, min, i, out);
    } else {
      Replaced(s.pending, out, i);
      Shrinks(s, DoSweep(s, min, i, out), min);
    }
  }

  lemma Unmaps(s: State, n: State, min: nat, i: nat)
    requires PendingOk(s) && MappedOk(s) && Behind(s, min, []) && i < |s.pending| && s.pending[i].epoch < min
    requires n == s.(mapped := s.mapped - {s.pending[i].page}, bg := n.bg)
    ensures MappedOk(n)
  {
    forall p, u | p in n.site && p !in n.mapped && u in n.registered
      ensures Holds(n.Pc(u)) != p
    {
      if p != s.pending[i].page {
        assert Holds(s.Pc(u)) != p;
      } else {
        Unheld(s, min, i, u);
      }
    }
  }

  // ----- all runs -----

  lemma EnterKeeps(s: State, step: Step)
    requires Inv(s) && Enabled(s, step) && Enters(step)
    ensures Inv(DoEnter(s, step))
  {
    hide Inv, DoCall, DoSwapHead;
    match step
    case Call(t, id) => StartsCall(s, t, id);
    case LoadHead(t) => Proceeds(s, t, RegLink(s.Pc(t).id, s.head));
    case WriteNext(t) => WritesNext(s, t, s.Pc(t).id, s.Pc(t).head);
    case SwapHead(t, spurious) => Registers(s, t, s.Pc(t).id, s.Pc(t).head, spurious);
    case LoadEpoch(t) => Proceeds(s, t, EpochStore(s.Pc(t).id, s.epoch));
    case StoreEpoch(t) => PublishesEpoch(s, t, s.Pc(t).id, s.Pc(t).v);
  }

  lemma RunKeeps(s: State, step: Step)
    requires Inv(s) && Enabled(s, step) && Runs(step)
    ensures Inv(DoRun(s, step))
  {
    hide Inv, DoLoadGen, DoLookup;
    match step
    case LoadGen(t) => ChecksCache(s, t, s.Pc(t).id);
    case Lookup(t) => FillsCache(s, t, s.Pc(t).id, s.Pc(t).gen);
    case Return(t) => Proceeds(s, t, Outside);
    case Leave(t) => Proceeds(s, t, Outside);
  }

  lemma DeoptKeeps(s: State, step: Step)
    requires Inv(s) && Enabled(s, step) && Deopts(step)
    ensures Inv(DoDeopt(s, step))
  {
    hide Inv, DoClear, DoEnqueue;
    match step
    case Fail(t) => FailsGuard(s, t, s.Pc(t).page);
    case Clear(t) => ClearsEntry(s, t, s.Pc(t).page);
    case BumpGen(t) => BumpsGen(s, t, s.Pc(t).page);
    case Enqueue(t) => EnqueuesPage(s, t, s.Pc(t).page);
  }

  lemma InstallKeeps(s: State, step: Step)
    requires Inv(s) && Enabled(s, step) && Installs(step)
    ensures Inv(DoInstall(s, step))
  {
    hide Inv;
    match step
    case Emit(id, page) => Emits(s, id, page);
    case Claim => Claims(s);
    case Install => StoresRoutine(s);
    case Announce => Announces(s);
  }

  lemma TakeKeeps(s: State, step: Step)
    requires Inv(s) && Enabled(s, step) && Takes(step)
    ensures Inv(DoTake(s, step))
  {
    hide Inv, DoDequeue, DoRetire;
    match step
    case DrainStart => Turns(s, Draining);
    case Dequeue => Dequeues(s);
    case Retire => Retires(s, s.bg.page);
  }

  lemma ScanKeeps(s: State, step: Step)
    requires Inv(s) && Enabled(s, step) && Scans(step)
    ensures Inv(DoScan(s, step))
  {
    hide Inv, ScanFrom;
    match step
    case LoadMin => Turns(s, HeadLoad(s.epoch));
    case LoadFirst => StartsScan(s, s.bg.min);
    case ReadEpoch => ReadsEpoch(s, s.bg.min, s.bg.at, s.bg.rest);
    case Follow => FollowsList(s, s.bg.min, s.bg.at, s.bg.rest);
  }

  lemma StepKeeps(s: State, step: Step)
    requires Inv(s) && Enabled(s, step)
    ensures Inv(Do(s, step))
  {
    hide Inv, DoEnter, DoRun, DoDeopt, DoInstall, DoTake, DoScan, DoSweep;
    if Enters(step) {
      EnterKeeps(s, step);
    } else if Runs(step) {
      RunKeeps(s, step);
    } else if Deopts(step) {
      DeoptKeeps(s, step);
    } else if Installs(step) {
      InstallKeeps(s, step);
    } else if Takes(step) {
      TakeKeeps(s, step);
    } else if Scans(step) {
      ScanKeeps(s, step);
    } else {
      Sweeps(s, s.bg.min, s.bg.i, s.bg.out);
    }
  }

  lemma Turns(s: State, bg: Background)
    requires Inv(s) && Upcoming(s.bg) == 0 && (bg.Draining? || bg.HeadLoad? || bg.Resting? || bg.MinLoad?)
    ensures Inv(s.(bg := bg))
  {
    hide TableOk, ThreadsOk, GoneOk, PendingOk, MappedOk, NodesOk, Cut, Chain, Distinct;
    Background(s, s.(bg := bg));
  }

  lemma {:induction false} ExecKeeps(s: State, steps: seq<Step>)
    requires Inv(s)
    ensures Inv(Exec(s, steps))
    decreases |steps|
  {
    hide Inv, Do, Enabled;
    if steps != [] {
      if Enabled(s, steps[0]) {
        StepKeeps(s, steps[0]);
        ExecKeeps(Do(s, steps[0]), steps[1..]);
      } else {
        ExecKeeps(s, steps[1..]);
      }
    }
  }
}
