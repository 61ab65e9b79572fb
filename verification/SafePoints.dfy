/** Safe points: which threads are registered, and what every 32nd call of a thread does. */
module SafePoints {
  import opened Lists
  import opened Epoch
  import opened EpochSteps
  import opened EpochResults

  predicate Registering(pc: Pc) { pc.RegLoad? || pc.RegLink? || pc.RegSwap? }

  ghost predicate RegisteredAt(s: State, t: Tid) {
    (t in s.registered <==> s.Calls(t) >= 32 && !Registering(s.Pc(t))) && (Registering(s.Pc(t)) ==> s.Calls(t) >= 32)
  }

  ghost predicate RegisteredOk(s: State) { forall t :: RegisteredAt(s, t) }

  lemma CallKeeps(s: State, t: Tid, id: Id, u: Tid)
    requires RegisteredOk(s) && Enabled(s, Call(t, id))
    ensures RegisteredAt(DoCall(s, t, id), u)
  {
    assert RegisteredAt(s, u);
  }

  lemma SwapKeeps(s: State, t: Tid, id: Id, head: Tid, spurious: bool, u: Tid)
    requires RegisteredOk(s) && s.Pc(t) == RegSwap(id, head)
    ensures RegisteredAt(DoSwapHead(s, t, id, head, spurious), u)
  {
    assert RegisteredAt(s, u) && RegisteredAt(s, t);
  }

  predicate Joining(step: Step) { step.LoadHead? || step.WriteNext? }

  lemma JoiningKeeps(s: State, step: Step, u: Tid)
    requires RegisteredOk(s) && Enabled(s, step) && Joining(step)
    ensures RegisteredAt(DoEnter(s, step), u)
  {
    assert RegisteredAt(s, u) && RegisteredAt(s, step.t);
  }

  lemma PublishingKeeps(s: State, step: Step, u: Tid)
    requires RegisteredOk(s) && Enabled(s, step) && (step.LoadEpoch? || step.StoreEpoch?)
    ensures RegisteredAt(DoEnter(s, step), u)
  {
    assert RegisteredAt(s, u) && RegisteredAt(s, step.t);
  }

  lemma EnterKeeps(s: State, step: Step, u: Tid)
    requires RegisteredOk(s) && Enabled(s, step) && Enters(step)
    ensures RegisteredAt(DoEnter(s, step), u)
  {
    hide RegisteredOk, RegisteredAt, DoCall, DoSwapHead;
    match step
    case Call(t, id) => CallKeeps(s, t, id, u);
    case SwapHead(t, spurious) => SwapKeeps(s, t, s.Pc(t).id, s.Pc(t).head, spurious, u);
    case _ =>
      hide DoEnter;
      if Joining(step) {
        JoiningKeeps(s, step, u);
      } else {
        PublishingKeeps(s, step, u);
      }
  }

  /** The thread that steps neither counts a call nor registers. */
  ghost predicate Leaves(s: State, n: State, t: Tid) {
    n.calls == s.calls && n.registered == s.registered && n.pcs == s.pcs[t := n.Pc(t)] &&
    !Registering(s.Pc(t)) && !Registering(n.Pc(t))
  }

  lemma RunLeaves(s: State, step: Step)
    requires Enabled(s, step) && Runs(step)
    ensures Leaves(s, Do(s, step), step.t)
  {
    hide DoEnter, DoDeopt, DoInstall, DoTake, DoScan, DoSweep;
  }

  lemma ClearLeaves(s: State, t: Tid, page: Page)
    requires s.Pc(t) == Reverting(page) && page in s.site
    ensures Leaves(s, DoClear(s, t, page), t)
  {
  }

  lemma EnqueueLeaves(s: State, t: Tid, page: Page)
    requires s.Pc(t) == Queueing(page)
    ensures Leaves(s, DoEnqueue(s, t, page), t)
  {
  }

  lemma FailLeaves(s: State, step: Step)
    requires Enabled(s, step) && (step.Fail? || step.BumpGen?)
    ensures Leaves(s, DoDeopt(s, step), step.t)
  {
  }

  lemma DeoptLeaves(s: State, step: Step)
    requires Enabled(s, step) && Deopts(step)
    ensures Leaves(s, DoDeopt(s, step), step.t)
  {
    hide Leaves, DoClear, DoEnqueue;
    match step
    case Clear(t) => ClearLeaves(s, t, s.Pc(t).page);
    case Enqueue(t) => EnqueueLeaves(s, t, s.Pc(t).page);
    case _ => FailLeaves(s, step);
  }

  lemma ByThread(s: State, n: State, t: Tid, u: Tid)
    requires RegisteredOk(s) && Leaves(s, n, t)
    ensures RegisteredAt(n, u)
  {
    assert RegisteredAt(s, u);
  }

  ghost predicate SameThreads(s: State, n: State) {
    n.calls == s.calls && n.registered == s.registered && n.pcs == s.pcs
  }

  lemma InstallLeaves(s: State, step: Step)
    requires Enabled(s, step) && Installs(step)
    ensures SameThreads(s, DoInstall(s, step))
  {
  }

  lemma DequeueLeaves(s: State)
    ensures SameThreads(s, DoDequeue(s))
  {
    if s.queue != [] {
      assert DoDequeue(s) == s.(queue := s.queue[1..], bg := Retiring(s.queue[0]));
    } else if s.pending == [] {
      assert DoDequeue(s) == s.(bg := Background.Resting);
    } else {
      assert DoDequeue(s) == s.(bg := MinLoad);
    }
  }

  lemma RetireLeaves(s: State, page: Page)
    ensures SameThreads(s, DoRetire(s, page))
  {
  }

  lemma TakeLeaves(s: State, step: Step)
    requires Enabled(s, step) && Takes(step)
    ensures SameThreads(s, DoTake(s, step))
  {
    hide DoDequeue, DoRetire;
    if step.Dequeue? {
      DequeueLeaves(s);
    } else if step.Retire? {
      RetireLeaves(s, s.bg.page);
    }
  }

  lemma ScanLeaves(s: State, step: Step)
    requires Enabled(s, step) && Scans(step)
    ensures SameThreads(s, DoScan(s, step))
  {
    hide ScanFrom, Tail;
  }

  lemma SweepEndLeaves(s: State, min: nat, i: nat, out: nat)
    requires out <= i && i >= |s.pending|
    ensures SameThreads(s, DoSweep(s, min, i, out))
  {
  }

  lemma SweepDropLeaves(s: State, min: nat, i: nat, out: nat)
    requires out <= i < |s.pending| && s.pending[i].epoch < min
    ensures SameThreads(s, DoSweep(s, min, i, out))
  {
  }

  lemma SweepKeepLeaves(s: State, min: nat, i: nat, out: nat)
    requires out <= i < |s.pending| && s.pending[i].epoch >= min
    ensures SameThreads(s, DoSweep(s, min, i, out))
  {
  }

  lemma SweepLeaves(s: State, min: nat, i: nat, out: nat)
    requires out <= i
    ensures SameThreads(s, DoSweep(s, min, i, out))
  {
    hide DoSweep, SameThreads;
    if i >= |s.pending| {
      SweepEndLeaves(s, min, i, out);
    } else if s.pending[i].epoch < min {
      SweepDropLeaves(s, min, i, out);
    } else {
      SweepKeepLeaves(s, min, i, out);
    }
  }

  lemma BackgroundLeaves(s: State, step: Step)
    requires Enabled(s, step) && !Enters(step) && !Runs(step) && !Deopts(step)
    ensures SameThreads(s, Do(s, step))
  {
    hide SameThreads, DoEnter, DoRun, DoDeopt, DoInstall, DoTake, DoScan, DoSweep;
    if Installs(step) {
      InstallLeaves(s, step);
    } else if Takes(step) {
      TakeLeaves(s, step);
    } else if Scans(step) {
      ScanLeaves(s, step);
    } else {
      SweepLeaves(s, s.bg.min, s.bg.i, s.bg.out);
    }
  }

  lemma StepKeeps(s: State, step: Step)
    requires RegisteredOk(s) && Enabled(s, step)
    ensures RegisteredOk(Do(s, step))
  {
    hide Enabled, RegisteredOk, RegisteredAt, Leaves, SameThreads, DoEnter, DoRun, DoDeopt, DoInstall, DoTake, DoScan, DoSweep;
    forall u: Tid
      ensures RegisteredAt(Do(s, step), u)
    {
      if Enters(step) {
        EnterKeeps(s, step, u);
      } else if Runs(step) {
        RunLeaves(s, step);
        ByThread(s, Do(s, step), step.t, u);
      } else if Deopts(step) {
        DeoptLeaves(s, step);
        ByThread(s, Do(s, step), step.t, u);
      } else {
        BackgroundLeaves(s, step);
        Same(s, Do(s, step), u);
      }
    }
    Everywhere(Do(s, step));
  }

  lemma Same(s: State, n: State, u: Tid)
    requires RegisteredOk(s) && SameThreads(s, n)
    ensures RegisteredAt(n, u)
  {
    assert RegisteredAt(s, u);
  }

  lemma Everywhere(s: State)
    requires forall u :: RegisteredAt(s, u)
    ensures RegisteredOk(s)
  {
    hide RegisteredAt;
  }

  lemma {:induction false} RunKeeps(s: State, steps: seq<Step>)
    requires RegisteredOk(s)
    ensures RegisteredOk(Exec(s, steps))
    decreases |steps|
  {
    hide Do, Enabled, RegisteredOk;
    if steps != [] {
      if Enabled(s, steps[0]) {
        StepKeeps(s, steps[0]);
        RunKeeps(Do(s, steps[0]), steps[1..]);
      } else {
        RunKeeps(s, steps[1..]);
      }
    }
  }

  /** In every reached state a thread is registered exactly when it has made 32 calls, but for one that is
      just then joining the list. */
  lemma RegisteredExactly(s: State, t: Tid)
    requires Reached(s)
    ensures t in s.registered <==> s.Calls(t) >= 32 && !s.Pc(t).RegLoad? && !s.Pc(t).RegLink? && !s.Pc(t).RegSwap?
  {
    hide Exec, RegisteredAt;
    var enabled, steps :| Exec(Init(enabled), steps) == s;
    assert RegisteredOk(Init(enabled)) by { NobodyYet(enabled); }
    RunKeeps(Init(enabled), steps);
    assert RegisteredAt(s, t);
    Unfold(s, t);
  }

  /** So from its 32nd call on no thread ever runs, or holds, an unmapped page. */
  lemma SafeFromThen(s: State, t: Tid)
    requires Reached(s) && s.Calls(t) >= 32 && Inside(s.Pc(t))
    ensures s.Pc(t).page in s.mapped
  {
    hide Exec, Reached;
    RegisteredExactly(s, t);
    RegisteredRunsMapped(s, t);
  }

  lemma NobodyYet(enabled: bool)
    ensures RegisteredOk(Init(enabled))
  {
  }

  lemma Unfold(s: State, t: Tid)
    requires RegisteredAt(s, t)
    ensures t in s.registered <==> s.Calls(t) >= 32 && !Registering(s.Pc(t))
  {
  }

  // ----- what a call does at a safe point, and at any other -----

  lemma OtherCall(s: State, t: Tid, id: Id)
    requires s.Pc(t).Outside? && t != 0 && id != 0 && (s.Calls(t) + 1) % 32 != 0
    ensures Exec(s, [Call(t, id)]) ==
            s.(calls := s.calls[t := s.Calls(t) + 1], pcs := s.pcs[t := GenLoad(id)])
  {
    hide Exec, DoRun, DoDeopt, DoInstall, DoTake, DoScan;
    ExecOne(s, Call(t, id));
  }

  lemma CountsCall(s: State, t: Tid, id: Id, rest: seq<Step>)
    requires s.Pc(t).Outside? && t != 0 && id != 0 && (s.Calls(t) + 1) % 32 == 0
    ensures Exec(s, [Call(t, id)] + rest) ==
            Exec(s.(calls := s.calls[t := s.Calls(t) + 1],
                    pcs := s.pcs[t := if t in s.registered then EpochLoad(id) else RegLoad(id)]), rest)
  {
    hide Exec, Do, Enabled;
    CallSteps(s, t, id);
    ExecMore(s, Call(t, id), rest);
  }

  lemma CallSteps(s: State, t: Tid, id: Id)
    requires s.Pc(t).Outside? && t != 0 && id != 0 && (s.Calls(t) + 1) % 32 == 0
    ensures Enabled(s, Call(t, id)) &&
            Do(s, Call(t, id)) == s.(calls := s.calls[t := s.Calls(t) + 1],
                                     pcs := s.pcs[t := if t in s.registered then EpochLoad(id) else RegLoad(id)])
  {
    hide DoRun, DoDeopt, DoInstall, DoTake, DoScan, DoSweep, DoSwapHead;
  }

  lemma Joins(s: State, t: Tid, id: Id, rest: seq<Step>)
    requires s.Pc(t) == RegLoad(id)
    ensures var n := Exec(s, [LoadHead(t)] + ([WriteNext(t)] + ([SwapHead(t, false)] + [])));
            n == s.(next := s.next[t := s.head], head := t, nodes := [t] + s.nodes, registered := s.registered + {t},
                    pcs := n.pcs) && n.Pc(t) == EpochLoad(id)
    ensures Exec(s, [LoadHead(t)] + ([WriteNext(t)] + ([SwapHead(t, false)] + rest))) ==
            Exec(Exec(s, [LoadHead(t)] + ([WriteNext(t)] + ([SwapHead(t, false)] + []))), rest)
  {
    hide Exec, Do, Enabled;
    LoadsHead(s, t, id);
    var a := s.Goto(t, RegLink(id, s.head));
    WritesNext(a, t, id, s.head);
    var b := a.(next := a.next[t := s.head]).Goto(t, RegSwap(id, s.head));
    SwapsHead(b, t, id);
    var c := b.(head := t, nodes := [t] + b.nodes, registered := b.registered + {t}).Goto(t, EpochLoad(id));
    ExecMore(s, LoadHead(t), [WriteNext(t)] + ([SwapHead(t, false)] + []));
    ExecMore(a, WriteNext(t), [SwapHead(t, false)] + []);
    ExecMore(b, SwapHead(t, false), []);
    ExecNone(c);
    ExecMore(s, LoadHead(t), [WriteNext(t)] + ([SwapHead(t, false)] + rest));
    ExecMore(a, WriteNext(t), [SwapHead(t, false)] + rest);
    ExecMore(b, SwapHead(t, false), rest);
  }

  lemma LoadsHead(s: State, t: Tid, id: Id)
    requires s.Pc(t) == RegLoad(id)
    ensures Enabled(s, LoadHead(t)) && Do(s, LoadHead(t)) == s.Goto(t, RegLink(id, s.head))
  {
    hide DoRun, DoDeopt, DoInstall, DoTake, DoScan;
  }

  lemma WritesNext(s: State, t: Tid, id: Id, head: Tid)
    requires s.Pc(t) == RegLink(id, head)
    ensures Enabled(s, WriteNext(t)) && Do(s, WriteNext(t)) == s.(next := s.next[t := head]).Goto(t, RegSwap(id, head))
  {
    hide DoRun, DoDeopt, DoInstall, DoTake, DoScan;
  }

  lemma SwapsHead(s: State, t: Tid, id: Id)
    requires s.Pc(t) == RegSwap(id, s.head)
    ensures Enabled(s, SwapHead(t, false)) &&
            Do(s, SwapHead(t, false)) ==
            s.(head := t, nodes := [t] + s.nodes, registered := s.registered + {t}).Goto(t, EpochLoad(id))
  {
    hide DoRun, DoDeopt, DoInstall, DoTake, DoScan;
  }

  lemma Publishes(s: State, t: Tid, id: Id)
    requires s.Pc(t) == EpochLoad(id)
    ensures var n := Exec(s, [LoadEpoch(t)] + ([StoreEpoch(t)] + []));
            n == s.(epochs := s.epochs[t := s.epoch], pcs := n.pcs) && n.Pc(t) == GenLoad(id)
  {
    hide Exec, Do, Enabled;
    LoadsEpoch(s, t, id);
    var a := s.Goto(t, EpochStore(id, s.epoch));
    StoresEpoch(a, t, id, s.epoch);
    ExecMore(s, LoadEpoch(t), [StoreEpoch(t)] + []);
    ExecMore(a, StoreEpoch(t), []);
    ExecNone(Do(a, StoreEpoch(t)));
  }

  lemma LoadsEpoch(s: State, t: Tid, id: Id)
    requires s.Pc(t) == EpochLoad(id)
    ensures Enabled(s, LoadEpoch(t)) && Do(s, LoadEpoch(t)) == s.Goto(t, EpochStore(id, s.epoch))
  {
    hide DoRun, DoDeopt, DoInstall, DoTake, DoScan;
  }

  lemma StoresEpoch(s: State, t: Tid, id: Id, v: nat)
    requires s.Pc(t) == EpochStore(id, v)
    ensures Enabled(s, StoreEpoch(t)) && Do(s, StoreEpoch(t)) == s.(epochs := s.epochs[t := v]).Goto(t, GenLoad(id))
  {
    hide DoRun, DoDeopt, DoInstall, DoTake, DoScan;
  }

  /** A thread's 32nd call, uninterrupted: it joins the list in front and publishes the current epoch. */
  lemma FirstSafePoint(s: State, t: Tid, id: Id)
    requires Reached(s) && s.Pc(t).Outside? && t != 0 && id != 0 && s.Calls(t) == 31
    ensures t !in s.registered
    ensures var n := Exec(s, [Call(t, id)] + ([LoadHead(t)] + ([WriteNext(t)] + ([SwapHead(t, false)] +
                             ([LoadEpoch(t)] + ([StoreEpoch(t)] + []))))));
            t in n.registered && n.registered == s.registered + {t} && n.Epoch(t) == n.epoch == s.epoch &&
            n.head == t && n.Next(t) == s.head && n.nodes == [t] + s.nodes && n.Pc(t) == GenLoad(id) && n.Calls(t) == 32 &&
            forall u :: u != t ==> n.Epoch(u) == s.Epoch(u)
  {
    hide Exec, Reached;
    RegisteredExactly(s, t);
    var tail := [LoadEpoch(t)] + ([StoreEpoch(t)] + []);
    CountsCall(s, t, id, [LoadHead(t)] + ([WriteNext(t)] + ([SwapHead(t, false)] + tail)));
    var a := s.(calls := s.calls[t := s.Calls(t) + 1], pcs := s.pcs[t := RegLoad(id)]);
    Joins(a, t, id, tail);
    Publishes(Exec(a, [LoadHead(t)] + ([WriteNext(t)] + ([SwapHead(t, false)] + []))), t, id);
  }

  /** Every later 32nd call publishes the current epoch, and nothing else changes. */
  lemma LaterSafePoint(s: State, t: Tid, id: Id)
    requires Reached(s) && s.Pc(t).Outside? && t != 0 && id != 0 && s.Calls(t) >= 32 && (s.Calls(t) + 1) % 32 == 0
    ensures var n := Exec(s, [Call(t, id)] + ([LoadEpoch(t)] + ([StoreEpoch(t)] + [])));
            t in s.registered && n.Epoch(t) == s.epoch && n.Pc(t) == GenLoad(id) &&
            n == s.(calls := s.calls[t := s.Calls(t) + 1], epochs := s.epochs[t := s.epoch], pcs := n.pcs)
  {
    hide Exec, Reached;
    RegisteredExactly(s, t);
    CountsCall(s, t, id, [LoadEpoch(t)] + ([StoreEpoch(t)] + []));
    Publishes(s.(calls := s.calls[t := s.Calls(t) + 1], pcs := s.pcs[t := EpochLoad(id)]), t, id);
  }

  /** With deopts switched off a failing guard leaves table, generation and queue alone. */
  lemma FailDisabled(s: State, t: Tid)
    requires !s.enabled && s.Pc(t).In?
    ensures var n := Exec(s, [Fail(t)] + ([Leave(t)] + [])); n == s.(pcs := n.pcs) && n.Pc(t) == Outside
  {
    hide Exec, DoEnter, DoInstall, DoTake, DoScan;
    ExecMore(s, Fail(t), [Leave(t)] + []);
    var a := s.Goto(t, Leaving(s.Pc(t).page));
    ExecMore(a, Leave(t), []);
    ExecNone(Do(a, Leave(t)));
  }
}
