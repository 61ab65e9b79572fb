/** What the page-retirement invariant means: which pages can be run, reached or unmapped. */
module EpochResults {
  import opened Lists
  import opened Epoch
  import opened EpochSteps

  /** s is reached by some schedule. */
  ghost predicate Reached(s: State) {
    exists enabled: bool, steps: seq<Step> :: Exec(Init(enabled), steps) == s
  }

  lemma ReachedInv(s: State)
    requires Reached(s)
    ensures Inv(s)
  {
    hide Inv;
    var enabled, steps :| Exec(Init(enabled), steps) == s;
    InitInv(enabled);
    ExecKeeps(Init(enabled), steps);
  }

  /** A registered thread never executes, or holds a pointer it is about to call to, an unmapped page. */
  lemma RegisteredRunsMapped(s: State, t: Tid)
    requires Reached(s) && t in s.registered && Inside(s.Pc(t))
    ensures s.Pc(t).page in s.mapped
  {
    hide TableOk, GoneOk, PendingOk, NodesOk, ScanOk;
    ReachedInv(s);
    assert ThreadOk(s, t);
  }

  /** An unmapped page is out of reach of every thread: no table entry names it, and a cache that
      still does cannot match the current generation. */
  lemma UnmappedIsUnreachable(s: State, p: Page)
    requires Reached(s) && p in s.site && p !in s.mapped
    ensures forall id :: s.Entry(id) != p
    ensures forall t :: s.Cache(t).fn == p ==> s.Cache(t).gen < s.gen
    ensures forall t :: t in s.registered ==> Holds(s.Pc(t)) != p
  {
    hide TableOk, ThreadsOk, GoneOk, PendingOk, NodesOk, ScanOk;
    ReachedInv(s);
    forall t: Tid
      ensures s.Cache(t).fn == p ==> s.Cache(t).gen < s.gen
      ensures forall id :: s.Entry(id) != p
    {
      NotCut(s, p, t);
    }
    NotCut(s, p, 0);
  }

  /** Whatever a thread, registered or not, finds through its cache or the table is mapped. */
  lemma FoundIsMapped(s: State, t: Tid, step: Step)
    requires Reached(s) && (step == LoadGen(t) || step == Lookup(t)) && Enabled(s, step)
    ensures var pc := Do(s, step).Pc(t); pc.In? ==> pc.page in s.mapped && pc.page !in s.gone
  {
    hide TableOk, GoneOk, PendingOk, NodesOk, ScanOk, Cut;
    ReachedInv(s);
    assert ThreadOk(s, t);
    var pc := Do(s, step).Pc(t);
    if pc.In? {
      if pc.page in s.gone {
        NotCut(s, pc.page, t);
        assert false;
      }
      FoundIsKnown(s, t, step);
    }
  }

  lemma FoundIsKnown(s: State, t: Tid, step: Step)
    requires Inv(s) && (step == LoadGen(t) || step == Lookup(t)) && Enabled(s, step) && Do(s, step).Pc(t).In?
    ensures Known(s, Do(s, step).Pc(t).page)
  {
    hide TableOk, GoneOk, PendingOk, NodesOk, ScanOk, Cut, MappedOk;
    assert ThreadOk(s, t);
    if step.Lookup? {
      EntryKnown(s, s.Pc(t).id);
    }
  }

  /** Once handed to the queue, a page gains no new holder, whatever step is taken. */
  lemma GoneGainsNoHolder(s: State, step: Step, p: Page, t: Tid)
    requires Reached(s) && Enabled(s, step) && p in s.gone && Holds(Do(s, step).Pc(t)) == p
    ensures Holds(s.Pc(t)) == p
  {
    hide Inv, Cut, DoEnter, DoRun, DoDeopt, DoInstall, DoTake, DoScan, DoSweep;
    ReachedInv(s);
    ZeroIsNotGone(s);
    NotCut(s, p, t);
  }

  // ----- an uninterrupted drain -----

  lemma ExecConcat(s: State, a: seq<Step>, b: seq<Step>)
    ensures Exec(s, a + b) == Exec(Exec(s, a), b)
    decreases |a|
  {
    hide Do, Enabled;
    if a == [] {
      assert a + b == b;
    } else {
      assert (a + b)[1..] == a[1..] + b;
      ExecConcat(if Enabled(s, a[0]) then Do(s, a[0]) else s, a[1..], b);
    }
  }

  lemma ExecOne(s: State, step: Step)
    requires Enabled(s, step)
    ensures Exec(s, [step]) == Do(s, step)
  {
    hide Do, Enabled;
    assert [step][1..] == [];
  }

  lemma ExecTwo(s: State, a: Step, b: Step)
    requires Enabled(s, a) && Enabled(Do(s, a), b)
    ensures Exec(s, [a, b]) == Do(Do(s, a), b)
  {
    hide Do, Enabled;
    assert [a, b] == [a] + [b];
    ExecConcat(s, [a], [b]);
    ExecOne(s, a);
    ExecOne(Do(s, a), b);
  }

  lemma ExecMore(s: State, step: Step, rest: seq<Step>)
    requires Enabled(s, step)
    ensures Exec(s, [step] + rest) == Exec(Do(s, step), rest)
  {
    hide Do, Enabled;
    assert ([step] + rest)[1..] == rest;
  }

  /** The least epoch among min and the threads of rest. */
  function MinEpoch(s: State, min: nat, rest: seq<Tid>): (m: nat)
    ensures m <= min && (forall t :: t in rest ==> m <= s.Epoch(t))
    ensures m == min || exists t :: t in rest && m == s.Epoch(t)
    decreases |rest|
  {
    if rest == [] then min else MinEpoch(s, Least(min, s.Epoch(rest[0])), rest[1..])
  }

  /** The entries a sweep with this minimum keeps, and the pages it unmaps. */
  function Kept(q: seq<Pending>, min: nat): (k: seq<Pending>)
    ensures forall e :: e in k <==> e in q && e.epoch >= min
    decreases |q|
  {
    if q == [] then [] else (if q[0].epoch < min then [] else [q[0]]) + Kept(q[1..], min)
  }

  function Due(q: seq<Pending>, min: nat): set<Page> {
    set e | e in q && e.epoch < min :: e.page
  }

  function ScanSteps(n: nat): seq<Step> { if n == 0 then [] else [ReadEpoch] + ([Follow] + ScanSteps(n - 1)) }

  function SweepSteps(n: nat): seq<Step> { if n == 0 then [] else [Sweep] + SweepSteps(n - 1) }

  lemma {:induction false} Scanned(s: State, min: nat, at: Tid, rest: seq<Tid>)
    requires s.bg == Reading(min, at, rest) && Rest(s, at, rest)
    ensures Exec(s, ScanSteps(|rest|)) == s.(bg := Sweeping(MinEpoch(s, min, rest), 0, 0))
    decreases |rest|, 1
  {
    hide Exec, Rest, ScanSteps, MinEpoch, ScanFrom;
    RestHead(s, at, rest);
    var lower := Least(min, s.Epoch(at));
    ScanUnrolls(s, min, at, rest, |rest| - 1);
    MinMore(s, min, rest);
    if |rest| == 1 {
      assert ScanFrom(lower, 0, rest[1..]) == Sweeping(lower, 0, 0) by { ScanEnds(lower, rest[1..]); }
      NoScan(s.(bg := Sweeping(lower, 0, 0)));
    } else {
      assert ScanFrom(lower, s.Next(at), rest[1..]) == Reading(lower, s.Next(at), rest[1..]) by {
        ScanGoesOn(lower, s.Next(at), rest[1..]);
      }
      ScannedRest(s, lower, s.Next(at), rest);
    }
  }

  lemma {:induction false} ScannedRest(s: State, min: nat, at: Tid, rest: seq<Tid>)
    requires |rest| > 1 && Rest(s, rest[0], rest) && at == s.Next(rest[0])
    ensures Exec(s.(bg := Reading(min, at, rest[1..])), ScanSteps(|rest| - 1)) ==
            s.(bg := Sweeping(MinEpoch(s, min, rest[1..]), 0, 0))
    decreases |rest|, 0
  {
    hide Exec, Rest, ScanSteps, MinEpoch;
    var b := s.(bg := Reading(min, at, rest[1..]));
    RestMore(s, rest[0], rest);
    RestFrame(s, b, at, rest[1..]);
    Scanned(b, min, at, rest[1..]);
    SameMin(s, b, min, rest[1..]);
  }

  lemma ScanEnds(min: nat, rest: seq<Tid>)
    ensures ScanFrom(min, 0, rest) == Sweeping(min, 0, 0)
  {
  }

  lemma ScanGoesOn(min: nat, at: Tid, rest: seq<Tid>)
    requires at != 0
    ensures ScanFrom(min, at, rest) == Reading(min, at, rest)
  {
  }

  lemma MinMore(s: State, min: nat, rest: seq<Tid>)
    requires rest != []
    ensures MinEpoch(s, min, rest) == MinEpoch(s, Least(min, s.Epoch(rest[0])), rest[1..])
    ensures |rest| == 1 ==> MinEpoch(s, min, rest) == Least(min, s.Epoch(rest[0]))
  {
  }

  lemma RestMore(s: State, at: Tid, rest: seq<Tid>)
    requires Rest(s, at, rest) && |rest| > 1
    ensures Rest(s, s.Next(at), rest[1..])
  {
    hide Chain, Distinct;
    RestHead(s, at, rest);
  }

  lemma ScanUnrolls(s: State, min: nat, at: Tid, rest: seq<Tid>, k: nat)
    requires s.bg == Reading(min, at, rest) && rest != []
    ensures Exec(s, ScanSteps(k + 1)) ==
            Exec(s.(bg := ScanFrom(Least(min, s.Epoch(at)), s.Next(at), rest[1..])), ScanSteps(k))
  {
    hide Exec, Do, ScanFrom;
    var a := s.(bg := Stepping(Least(min, s.Epoch(at)), at, rest));
    ReadStep(s, min, at, rest);
    ExecMore(s, ReadEpoch, [Follow] + ScanSteps(k));
    FollowStep(a, a.bg.min, at, rest);
    ExecMore(a, Follow, ScanSteps(k));
  }

  lemma {:induction false} SameMin(s: State, n: State, min: nat, rest: seq<Tid>)
    requires n.epochs == s.epochs
    ensures MinEpoch(n, min, rest) == MinEpoch(s, min, rest)
    decreases |rest|
  {
    if rest != [] {
      SameMin(s, n, Least(min, s.Epoch(rest[0])), rest[1..]);
    }
  }

  lemma ReadStep(s: State, min: nat, at: Tid, rest: seq<Tid>)
    requires s.bg == Reading(min, at, rest)
    ensures Enabled(s, ReadEpoch) && Do(s, ReadEpoch) == s.(bg := Stepping(Least(min, s.Epoch(at)), at, rest))
  {
    hide DoEnter, DoRun, DoDeopt, DoInstall;
  }

  lemma FollowStep(s: State, min: nat, at: Tid, rest: seq<Tid>)
    requires s.bg == Stepping(min, at, rest)
    ensures Enabled(s, Follow) && Do(s, Follow) == s.(bg := ScanFrom(min, s.Next(at), Tail(rest)))
  {
    hide DoEnter, DoRun, DoDeopt, DoInstall, ScanFrom, Tail;
  }

  lemma SweepStep(s: State, min: nat, i: nat, out: nat)
    requires s.bg == Sweeping(min, i, out) && out <= i
    ensures Enabled(s, Sweep) && Do(s, Sweep) == DoSweep(s, min, i, out)
  {
    hide DoEnter, DoRun, DoDeopt, DoInstall, DoSweep;
  }

  /** What pending is when the compaction loop, now at i and out, ends; and what is left to unmap. */
  ghost function Compacted(q: seq<Pending>, min: nat, i: nat, out: nat): seq<Pending>
    requires out <= i <= |q|
  {
    q[..out] + Kept(q[i..], min)
  }

  ghost function DueFrom(q: seq<Pending>, min: nat, i: nat): set<Page>
    requires i <= |q|
  {
    Due(q[i..], min)
  }

  /** The state in which that loop ends. */
  ghost function AfterSweep(s: State, min: nat, i: nat, out: nat): State
    requires out <= i <= |s.pending|
  {
    s.(pending := Compacted(s.pending, min, i, out), mapped := s.mapped - DueFrom(s.pending, min, i), bg := Resting)
  }

  /** The in-place compaction keeps exactly the entries no older than the minimum, in order, and
      unmaps exactly the pages of the others. */
  lemma {:induction false} Swept(s: State, min: nat, i: nat, out: nat)
    requires s.bg == Sweeping(min, i, out) && out <= i <= |s.pending|
    ensures Exec(s, SweepSteps(|s.pending| - i + 1)) == AfterSweep(s, min, i, out)
    decreases |s.pending| - i, 1
  {
    hide Exec, DoSweep, AfterSweep, SweepSteps;
    if i == |s.pending| {
      SweepUnrolls(s, min, i, out, 0);
      SweepEnds(s, min, out);
    } else if s.pending[i].epoch < min {
      SweptDropping(s, min, i, out);
    } else {
      SweptKeeping(s, min, i, out);
    }
  }

  lemma {:induction false} SweptDropping(s: State, min: nat, i: nat, out: nat)
    requires s.bg == Sweeping(min, i, out) && out <= i < |s.pending| && s.pending[i].epoch < min
    ensures Exec(s, SweepSteps(|s.pending| - i + 1)) == AfterSweep(s, min, i, out)
    decreases |s.pending| - i, 0
  {
    hide Exec, DoSweep, AfterSweep, SweepSteps;
    SweepUnrolls(s, min, i, out, |s.pending| - i);
    SweepDrops(s, min, i, out);
    Swept(DoSweep(s, min, i, out), min, i + 1, out);
  }

  lemma {:induction false} SweptKeeping(s: State, min: nat, i: nat, out: nat)
    requires s.bg == Sweeping(min, i, out) && out <= i < |s.pending| && s.pending[i].epoch >= min
    ensures Exec(s, SweepSteps(|s.pending| - i + 1)) == AfterSweep(s, min, i, out)
    decreases |s.pending| - i, 0
  {
    hide Exec, DoSweep, AfterSweep, SweepSteps;
    SweepUnrolls(s, min, i, out, |s.pending| - i);
    SweepKeeps(s, min, i, out);
    Swept(DoSweep(s, min, i, out), min, i + 1, out + 1);
  }

  lemma SweepUnrolls(s: State, min: nat, i: nat, out: nat, k: nat)
    requires s.bg == Sweeping(min, i, out) && out <= i
    ensures Exec(s, SweepSteps(k + 1)) == Exec(DoSweep(s, min, i, out), SweepSteps(k))
  {
    hide Exec, Do, DoSweep;
    SweepStep(s, min, i, out);
    ExecMore(s, Sweep, SweepSteps(k));
  }

  lemma SweepEnds(s: State, min: nat, out: nat)
    requires out <= |s.pending|
    ensures Exec(DoSweep(s, min, |s.pending|, out), SweepSteps(0)) == AfterSweep(s, min, |s.pending|, out)
  {
    assert s.pending[|s.pending|..] == [];
    assert s.mapped - Due([], min) == s.mapped;
    ExecNone(DoSweep(s, min, |s.pending|, out));
  }

  lemma SweepDrops(s: State, min: nat, i: nat, out: nat)
    requires out <= i < |s.pending| && s.pending[i].epoch < min
    ensures var n := s.(mapped := s.mapped - {s.pending[i].page}, bg := Sweeping(min, i + 1, out));
            DoSweep(s, min, i, out) == n && AfterSweep(n, min, i + 1, out) == AfterSweep(s, min, i, out)
  {
    hide Compacted, DueFrom;
    var q := s.pending;
    SweptOne(q, min, i, out);
    assert s.mapped - {q[i].page} - DueFrom(q, min, i + 1) == s.mapped - (DueFrom(q, min, i + 1) + {q[i].page});
  }

  lemma SweepKeeps(s: State, min: nat, i: nat, out: nat)
    requires out <= i < |s.pending| && s.pending[i].epoch >= min
    ensures var n := s.(pending := s.pending[out := s.pending[i]], bg := Sweeping(min, i + 1, out + 1));
            DoSweep(s, min, i, out) == n && AfterSweep(n, min, i + 1, out + 1) == AfterSweep(s, min, i, out)
  {
    hide Compacted, DueFrom;
    SweptOne(s.pending, min, i, out);
  }

  lemma ExecNone(s: State)
    ensures Exec(s, []) == s
  {
  }

  lemma SweptOne(q: seq<Pending>, min: nat, i: nat, out: nat)
    requires out <= i < |q|
    ensures q[i].epoch < min ==>
            DueFrom(q, min, i) == DueFrom(q, min, i + 1) + {q[i].page} &&
            Compacted(q, min, i, out) == Compacted(q, min, i + 1, out)
    ensures q[i].epoch >= min ==>
            DueFrom(q, min, i) == DueFrom(q[out := q[i]], min, i + 1) &&
            Compacted(q, min, i, out) == Compacted(q[out := q[i]], min, i + 1, out + 1)
  {
    assert q[i..] == [q[i]] + q[i + 1..];
    assert q[out := q[i]][..out + 1] == q[..out] + [q[i]];
    assert q[out := q[i]][i + 1..] == q[i + 1..];
  }

  function DrainSteps(s: State): seq<Step> {
    [LoadMin, LoadFirst] + (ScanSteps(|s.nodes|) + SweepSteps(|s.pending| + 1))
  }

  /** Run without interruption, a drain unmaps exactly the pending pages retired at an epoch before
      every registered thread's, and keeps the others, in order. */
  lemma DrainIsExact(s: State)
    requires Inv(s) && s.bg.MinLoad?
    ensures var m := MinEpoch(s, s.epoch, s.nodes);
            Exec(s, DrainSteps(s)) ==
            s.(pending := Kept(s.pending, m), mapped := s.mapped - Due(s.pending, m), bg := Resting)
  {
    hide Exec, Inv, ScanSteps, SweepSteps, MinEpoch, Kept, Due;
    var m := MinEpoch(s, s.epoch, s.nodes);
    ScanPhase(s);
    ExecConcat(s, [LoadMin, LoadFirst] + ScanSteps(|s.nodes|), SweepSteps(|s.pending| + 1));
    assert DrainSteps(s) == [LoadMin, LoadFirst] + ScanSteps(|s.nodes|) + SweepSteps(|s.pending| + 1);
    Swept(s.(bg := Sweeping(m, 0, 0)), m, 0, 0);
    assert s.pending[0..] == s.pending && s.pending[..0] == [];
  }

  lemma ScanPhase(s: State)
    requires Inv(s) && s.bg.MinLoad?
    ensures Exec(s, [LoadMin, LoadFirst] + ScanSteps(|s.nodes|)) ==
            s.(bg := Sweeping(MinEpoch(s, s.epoch, s.nodes), 0, 0))
  {
    hide Exec, Chain, Distinct, TableOk, GoneOk, ThreadsOk, PendingOk, MappedOk, ScanSteps;
    hide DoEnter, DoRun, DoDeopt, DoInstall;
    ExecConcat(s, [LoadMin, LoadFirst], ScanSteps(|s.nodes|));
    ScanBegins(s);
    var a := s.(bg := ScanFrom(s.epoch, s.head, s.nodes));
    ChainEnds(s.next, s.head, s.nodes);
    if s.nodes == [] {
      NoScan(a);
    } else {
      Scanned(a, s.epoch, s.head, s.nodes);
      SameMin(s, a, s.epoch, s.nodes);
    }
  }

  lemma ScanBegins(s: State)
    requires s.bg.MinLoad?
    ensures Exec(s, [LoadMin, LoadFirst]) == s.(bg := ScanFrom(s.epoch, s.head, s.nodes))
  {
    hide Exec, DoEnter, DoRun, DoDeopt, DoInstall, ScanFrom;
    ExecTwo(s, LoadMin, LoadFirst);
  }

  lemma NoScan(s: State)
    ensures Exec(s, ScanSteps(0)) == s
  {
  }

  /** So the next uninterrupted drain disposes of a pending entry if and only if every registered
      thread has passed a safe point since its retirement, and then the page is unmapped. */
  lemma DrainReclaims(s: State, i: nat)
    requires Reached(s) && s.bg.MinLoad? && i < |s.pending|
    ensures var n := Exec(s, DrainSteps(s));
            s.pending[i] !in n.pending <==> forall t :: t in s.registered ==> s.pending[i].epoch < s.Epoch(t)
    ensures (forall t :: t in s.registered ==> s.pending[i].epoch < s.Epoch(t)) ==>
            s.pending[i].page !in Exec(s, DrainSteps(s)).mapped
  {
    hide Exec, Reached, Kept, MinEpoch, Inv, DrainSteps;
    ReachedInv(s);
    DrainIsExact(s);
    assert s.pending[i].epoch < s.epoch by { PendingIsOld(s, i); }
    var m := MinEpoch(s, s.epoch, s.nodes);
    assert s.pending[i] in s.pending;
    assert forall t :: t in s.registered <==> t in s.nodes by { NodesAreRegistered(s); }
  }

  lemma PendingIsOld(s: State, i: nat)
    requires Inv(s) && i < |s.pending|
    ensures s.pending[i].epoch < s.epoch
  {
  }

  lemma NodesAreRegistered(s: State)
    requires Inv(s)
    ensures forall t :: t in s.registered <==> t in s.nodes
  {
  }

  // ----- an unregistered thread is not protected -----

  /** Installing page for site id. */
  function Installation(id: Id, page: Page): seq<Step> { [Emit(id, page), Claim] + [Install, Announce] }

  lemma Claimed(s: State, id: Id, page: Page)
    requires s.bg.Resting? && id != 0 && page != 0 && page !in s.site
    ensures Exec(s, [Emit(id, page), Claim]) ==
            s.(site := s.site[page := id], mapped := s.mapped + {page}, table := s.table[id := s.Entry(id)],
               bg := Installing(id, page))
  {
    hide Exec, DoEnter, DoRun, DoDeopt, DoTake, DoScan;
    ExecTwo(s, Emit(id, page), Claim);
  }

  lemma Announced(s: State, id: Id, page: Page)
    requires s.bg == Installing(id, page)
    ensures Exec(s, [Install, Announce]) == s.(table := s.table[id := page], gen := s.gen + 1, bg := Resting)
  {
    hide Exec, DoEnter, DoRun, DoDeopt, DoTake, DoScan;
    ExecTwo(s, Install, Announce);
  }

  lemma Installed(s: State, id: Id, page: Page)
    requires s.bg.Resting? && id != 0 && page != 0 && page !in s.site
    ensures Exec(s, Installation(id, page)) ==
            s.(site := s.site[page := id], mapped := s.mapped + {page},
               table := s.table[id := s.Entry(id)][id := page], gen := s.gen + 1)
  {
    hide Exec;
    ExecConcat(s, [Emit(id, page), Claim], [Install, Announce]);
    Claimed(s, id, page);
    Announced(Exec(s, [Emit(id, page), Claim]), id, page);
  }

  /** A thread finds site id's page in the table and calls it. */
  function Entering(t: Tid, id: Id): seq<Step> { [Call(t, id)] + [LoadGen(t), Lookup(t)] }

  lemma Entered(s: State, t: Tid, id: Id)
    requires s.Pc(t).Outside? && t != 0 && id != 0 && s.Entry(id) != 0 && t !in s.caches && t !in s.calls
    ensures Exec(s, Entering(t, id)) ==
            s.(calls := s.calls[t := 1], caches := s.caches[t := Cached(id, s.Entry(id), s.gen)],
               pcs := s.pcs[t := GenLoad(id)][t := Looking(id, s.gen)][t := In(s.Entry(id))])
  {
    hide Exec, DoInstall, DoDeopt, DoTake, DoScan;
    ExecConcat(s, [Call(t, id)], [LoadGen(t), Lookup(t)]);
    ExecOne(s, Call(t, id));
    ExecTwo(Exec(s, [Call(t, id)]), LoadGen(t), Lookup(t));
  }

  /** A thread's guard fails: it takes its page out of the table and enqueues it. */
  function Deopting(t: Tid): seq<Step> { [Fail(t), Clear(t)] + [BumpGen(t), Enqueue(t)] }

  lemma Cleared(s: State, t: Tid, page: Page)
    requires s.enabled && s.Pc(t) == In(page) && page in s.site && s.site[page] in s.table
    ensures Exec(s, [Fail(t), Clear(t)]) ==
            s.(table := s.table[s.site[page] := 0], pcs := s.pcs[t := Reverting(page)][t := Bumping(page)])
  {
    hide Exec, DoEnter, DoRun, DoInstall, DoTake, DoScan;
    ExecTwo(s, Fail(t), Clear(t));
  }

  lemma Enqueued(s: State, t: Tid, page: Page)
    requires s.Pc(t) == Bumping(page) && |s.queue| < QUEUE_CAP
    ensures Exec(s, [BumpGen(t), Enqueue(t)]) ==
            s.(gen := s.gen + 1, queue := s.queue + [page], gone := s.gone + {page},
               pcs := s.pcs[t := Queueing(page)][t := Leaving(page)])
  {
    hide Exec, Do, Enabled;
    BumpStep(s, t, page);
    var n := s.(gen := s.gen + 1, pcs := s.pcs[t := Queueing(page)]);
    EnqueueStep(n, t, page);
    ExecTwo(s, BumpGen(t), Enqueue(t));
  }

  lemma BumpStep(s: State, t: Tid, page: Page)
    requires s.Pc(t) == Bumping(page)
    ensures Enabled(s, BumpGen(t)) &&
            Do(s, BumpGen(t)) == s.(gen := s.gen + 1, pcs := s.pcs[t := Queueing(page)])
  {
    hide DoEnter, DoRun, DoInstall, DoTake, DoScan;
  }

  lemma EnqueueStep(s: State, t: Tid, page: Page)
    requires s.Pc(t) == Queueing(page) && |s.queue| < QUEUE_CAP
    ensures Enabled(s, Enqueue(t)) &&
            Do(s, Enqueue(t)) == s.(queue := s.queue + [page], gone := s.gone + {page}, pcs := s.pcs[t := Leaving(page)])
  {
    hide DoEnter, DoRun, DoInstall, DoTake, DoScan;
  }

  lemma Deopted(s: State, t: Tid, page: Page)
    requires s.enabled && s.Pc(t) == In(page) && page in s.site && s.site[page] in s.table
    requires |s.queue| < QUEUE_CAP
    ensures var n := Exec(s, Deopting(t));
            n == s.(table := s.table[s.site[page] := 0], gen := s.gen + 1, queue := s.queue + [page],
                    gone := s.gone + {page}, pcs := n.pcs) &&
            forall u :: u != t ==> n.Pc(u) == s.Pc(u)
  {
    hide Exec;
    ExecConcat(s, [Fail(t), Clear(t)], [BumpGen(t), Enqueue(t)]);
    Cleared(s, t, page);
    Enqueued(Exec(s, [Fail(t), Clear(t)]), t, page);
  }

  /** The background thread takes one page off the queue and finds no other. */
  function Retirement(): seq<Step> { [DrainStart, Dequeue] + [Retire, Dequeue] }

  lemma Retired(s: State, page: Page)
    requires s.bg.Resting? && s.queue == [page] && s.pending == []
    ensures Exec(s, Retirement()) ==
            s.(queue := [], epoch := s.epoch + 1, pending := [Pending(page, s.epoch)], bg := MinLoad)
  {
    hide Exec, DoEnter, DoRun, DoInstall, DoDeopt;
    ExecConcat(s, [DrainStart, Dequeue], [Retire, Dequeue]);
    ExecTwo(s, DrainStart, Dequeue);
    ExecTwo(Exec(s, [DrainStart, Dequeue]), Retire, Dequeue);
  }

  lemma Scheduled(s: State, a: seq<Step>, b: seq<Step>, c: seq<Step>, d: seq<Step>, e: seq<Step>, f: seq<Step>)
    ensures Exec(s, a + (b + (c + (d + (e + f))))) == Exec(Exec(Exec(Exec(Exec(Exec(s, a), b), c), d), e), f)
  {
    hide Exec;
    ExecConcat(s, a, b + (c + (d + (e + f))));
    ExecConcat(Exec(s, a), b, c + (d + (e + f)));
    ExecConcat(Exec(Exec(s, a), b), c, d + (e + f));
    ExecConcat(Exec(Exec(Exec(s, a), b), c), d, e + f);
    ExecConcat(Exec(Exec(Exec(Exec(s, a), b), c), d), e, f);
  }

  /** Registration, which comes only with a thread's 32nd call, is needed: threads 1 and 2 run page 7
      on their first call, 2 fails its guard, and the page is unmapped while 1 is still in it. */
  lemma UnregisteredIsNotProtected()
    ensures exists s :: Reached(s) && s.Pc(1) == In(7) && 7 in s.site && 7 !in s.mapped && 1 !in s.registered
  {
    hide Exec, Reached, Installation, Entering, Deopting, Retirement, DrainSteps, Kept, Due, MinEpoch;
    var s0 := Init(true);
    Installed(s0, 5, 7);
    var s1 := Exec(s0, Installation(5, 7));
    Entered(s1, 1, 5);
    var s2 := Exec(s1, Entering(1, 5));
    Entered(s2, 2, 5);
    var s3 := Exec(s2, Entering(2, 5));
    assert s2.Pc(1) == In(7) && s3.Pc(1) == In(7) && s3.Pc(2) == In(7);
    Deopted(s3, 2, 7);
    var s4 := Exec(s3, Deopting(2));
    Retired(s4, 7);
    var s5 := Exec(s4, Retirement());
    var f := DrainSteps(s5);
    Scheduled(s0, Installation(5, 7), Entering(1, 5), Entering(2, 5), Deopting(2), Retirement(), f);
    Scheduled(s0, Installation(5, 7), Entering(1, 5), Entering(2, 5), Deopting(2), Retirement(), []);
    ExecNone(s5);
    IsReached(true, Installation(5, 7) + (Entering(1, 5) + (Entering(2, 5) + (Deopting(2) + (Retirement() + [])))));
    IsReached(true, Installation(5, 7) + (Entering(1, 5) + (Entering(2, 5) + (Deopting(2) + (Retirement() + f)))));
    ReachedInv(s5);
    assert s5.pending == [Pending(7, 0)] && s5.nodes == [] && s5.Pc(1) == In(7) && s5.registered == {};
    LoneDrained(s5, 7);
    var s6 := Exec(s5, f);
    assert Reached(s6) && s6.Pc(1) == In(7) && 7 in s6.site && 7 !in s6.mapped && 1 !in s6.registered;
  }

  lemma LoneDrained(s: State, page: Page)
    requires Inv(s) && s.bg.MinLoad? && s.pending == [Pending(page, 0)] && s.nodes == [] && s.epoch > 0
    ensures var n := Exec(s, DrainSteps(s));
            n == s.(pending := n.pending, mapped := n.mapped, bg := Resting) && page !in n.mapped
  {
    hide Exec, Inv, DrainSteps, Kept;
    DrainIsExact(s);
    assert s.pending[0] in s.pending;
  }

  lemma IsReached(enabled: bool, steps: seq<Step>)
    ensures Reached(Exec(Init(enabled), steps))
  {
    hide Exec;
  }

  /** Exactly when: an uninterrupted drain unmaps a page, held by such a thread or not, if and only if
      some pending entry names it and every registered thread has passed a safe point since that entry
      was retired.  The unregistered holder still has it. */
  lemma UnregisteredHolder(s: State, t: Tid)
    requires Reached(s) && s.bg.MinLoad? && t !in s.registered && Holds(s.Pc(t)) in s.mapped
    ensures var n, p := Exec(s, DrainSteps(s)), Holds(s.Pc(t));
            Holds(n.Pc(t)) == p &&
            (p !in n.mapped <==> exists i :: 0 <= i < |s.pending| && s.pending[i].page == p &&
                                             forall u :: u in s.registered ==> s.pending[i].epoch < s.Epoch(u))
  {
    hide Exec, Reached, Kept, MinEpoch, Inv, DrainSteps;
    ReachedInv(s);
    DrainIsExact(s);
    var m, p := MinEpoch(s, s.epoch, s.nodes), Holds(s.Pc(t));
    NodesAreRegistered(s);
    forall i | 0 <= i < |s.pending|
      ensures s.pending[i].epoch < m <==> forall u :: u in s.registered ==> s.pending[i].epoch < s.Epoch(u)
    {
      PendingIsOld(s, i);
    }
    if p in Due(s.pending, m) {
      var e :| e in s.pending && e.epoch < m && e.page == p;
      var i :| 0 <= i < |s.pending| && s.pending[i] == e;
    }
    if i :| 0 <= i < |s.pending| && s.pending[i].page == p && s.pending[i].epoch < m {
      assert s.pending[i] in s.pending;
    }
  }
}
