/** The bound-replay harness: resolving a recorded trace into slot-addressed operations, and replaying
    them any number of times so that every pointer obtained is freed exactly once. */
module Replay {
  import opened Lists

  type Ptr = nat

  /** A trace record; size 0 is a free. */
  datatype Event = Event(site: nat, size: nat, ptr: Ptr)

  datatype Op = Alloc(site: nat, size: nat, slot: nat) | Free(slot: nat)

  // ----- what a well-formed operation stream is -----

  /** The number of slots a stream fills. */
  function Slots(ops: seq<Op>): nat {
    if ops == [] then 0 else Slots(ops[..|ops| - 1]) + if ops[|ops| - 1].Alloc? then 1 else 0
  }

  /** The slots filled and not freed since. */
  function Open(ops: seq<Op>): set<nat> {
    if ops == [] then {}
    else
      var o, last := Open(ops[..|ops| - 1]), ops[|ops| - 1];
      if last.Alloc? then o + {last.slot} else o - {last.slot}
  }

  /** Every allocation fills the next slot; every free names a slot filled earlier and not freed since. */
  predicate WellFormed(ops: seq<Op>) {
    ops == [] ||
    var r, last := ops[..|ops| - 1], ops[|ops| - 1];
    WellFormed(r) && if last.Alloc? then last.slot == Slots(r) else last.slot in Open(r)
  }

  /** The slots ever named by a free. */
  function Freed(ops: seq<Op>): set<nat> {
    if ops == [] then {}
    else Freed(ops[..|ops| - 1]) + if ops[|ops| - 1].Free? then {ops[|ops| - 1].slot} else {}
  }

  lemma {:induction false} PartitionAt(ops: seq<Op>, s: nat)
    requires WellFormed(ops)
    ensures s < Slots(ops) <==> s in Freed(ops) || s in Open(ops)
    ensures !(s in Freed(ops) && s in Open(ops))
  {
    if ops != [] {
      PartitionAt(ops[..|ops| - 1], s);
    }
  }

  /** The freed slots and the leaked ones partition all slots. */
  lemma Partition(ops: seq<Op>)
    requires WellFormed(ops)
    ensures Freed(ops) !! Open(ops)
    ensures forall s: nat :: s < Slots(ops) <==> s in Freed(ops) || s in Open(ops)
  {
    hide WellFormed, Freed, Open, Slots;
    forall s: nat
      ensures s < Slots(ops) <==> s in Freed(ops) || s in Open(ops)
      ensures !(s in Freed(ops) && s in Open(ops))
    {
      PartitionAt(ops, s);
    }
  }

  lemma {:induction false} PrefixWellFormed(ops: seq<Op>, k: nat)
    requires WellFormed(ops) && k <= |ops|
    ensures WellFormed(ops[..k]) && Slots(ops[..k]) <= Slots(ops)
    decreases |ops|
  {
    if k < |ops| {
      PrefixWellFormed(ops[..|ops| - 1], k);
      assert ops[..|ops| - 1][..k] == ops[..k];
    } else {
      assert ops[..k] == ops;
    }
  }

  // ----- resolution -----

  /** Which slot holds the live allocation of each pointer. */
  function Index(events: seq<Event>): map<Ptr, nat> {
    if events == [] then map[]
    else
      var r, e := events[..|events| - 1], events[|events| - 1];
      if e.size == 0 then Index(r) - {e.ptr}
      else if e.ptr != 0 then Index(r)[e.ptr := Slots(Resolved(r))]
      else Index(r)
  }

  /** Allocations get consecutive slots; a free of a pointer that is live in the trace gets its slot,
      any other free is skipped. */
  function Resolved(events: seq<Event>): seq<Op> {
    if events == [] then []
    else
      var r, e := events[..|events| - 1], events[|events| - 1];
      if e.size != 0 then Resolved(r) + [Alloc(e.site, e.size, Slots(Resolved(r)))]
      else if e.ptr in Index(r) then Resolved(r) + [Free(Index(r)[e.ptr])]
      else Resolved(r)
  }

  /** Every trace resolves to a well-formed stream, with one slot for each allocation record. */
  lemma {:induction false} ResolvedIsWellFormed(events: seq<Event>)
    ensures WellFormed(Resolved(events))
    ensures forall p :: p in Index(events) ==> Index(events)[p] in Open(Resolved(events))
    ensures forall p, q :: p in Index(events) && q in Index(events) && p != q ==> Index(events)[p] != Index(events)[q]
    ensures Slots(Resolved(events)) == Allocations(events)
  {
    if events != [] {
      var r, e := events[..|events| - 1], events[|events| - 1];
      ResolvedIsWellFormed(r);
      Partition(Resolved(r));
      var ops := Resolved(events);
      if |ops| > |Resolved(r)| {
        assert ops[..|ops| - 1] == Resolved(r);
      }
    }
  }

  function Allocations(events: seq<Event>): nat {
    if events == [] then 0 else Allocations(events[..|events| - 1]) + if events[|events| - 1].size != 0 then 1 else 0
  }

  /** A free resolves to the latest allocation of its pointer, unless a free came in between. */
  lemma {:induction false} IndexIsLatest(events: seq<Event>, i: nat)
    requires i < |events| && events[i].size != 0 && events[i].ptr != 0
    requires forall j :: i < j < |events| ==> events[j].ptr != events[i].ptr
    ensures events[i].ptr in Index(events) && Index(events)[events[i].ptr] == Allocations(events[..i])
    decreases |events|
  {
    var r := events[..|events| - 1];
    if i == |events| - 1 {
      ResolvedIsWellFormed(r);
    } else {
      IndexIsLatest(r, i);
      assert r[..i] == events[..i];
    }
  }

  /** The last record that names p, or none. */
  function LastNaming(events: seq<Event>, p: Ptr): (k: int)
    ensures -1 <= k < |events| && (k >= 0 ==> events[k].ptr == p) && forall j :: k < j < |events| ==> events[j].ptr != p
  {
    if events == [] then -1
    else if events[|events| - 1].ptr == p then |events| - 1
    else LastNaming(events[..|events| - 1], p)
  }

  /** Whether p is live in the trace: the last record that names it is an allocation. */
  predicate Live(events: seq<Event>, p: Ptr) {
    var k := LastNaming(events, p);
    p != 0 && k >= 0 && events[k].size != 0
  }

  lemma {:induction false} IndexIsLive(events: seq<Event>, p: Ptr)
    ensures p in Index(events) <==> Live(events, p)
    ensures Live(events, p) ==> Index(events)[p] == Allocations(events[..LastNaming(events, p)])
  {
    if events != [] {
      var r := events[..|events| - 1];
      IndexIsLive(r, p);
      if events[|events| - 1].ptr == p {
        ResolvedIsWellFormed(r);
      } else if LastNaming(r, p) >= 0 {
        assert r[..LastNaming(r, p)] == events[..LastNaming(r, p)];
      }
    }
  }

  /** What each record resolves to: an allocation fills the next slot; a free of a pointer that is live in the
      trace frees the slot of its latest allocation; any other free is skipped. */
  lemma ResolvedExactly(events: seq<Event>, e: Event)
    ensures Resolved(events + [e]) ==
            if e.size != 0 then Resolved(events) + [Alloc(e.site, e.size, Allocations(events))]
            else if Live(events, e.ptr) then Resolved(events) + [Free(Allocations(events[..LastNaming(events, e.ptr)]))]
            else Resolved(events)
  {
    hide Index, Live, Allocations, Slots, LastNaming;
    var n := events + [e];
    assert n[..|n| - 1] == events;
    IndexIsLive(events, e.ptr);
    ResolvedIsWellFormed(events);
  }

  function Frees(events: seq<Event>): nat {
    if events == [] then 0 else Frees(events[..|events| - 1]) + if events[|events| - 1].size == 0 then 1 else 0
  }

  function FreeOps(ops: seq<Op>): nat {
    if ops == [] then 0 else FreeOps(ops[..|ops| - 1]) + if ops[|ops| - 1].Free? then 1 else 0
  }

  /** What appending one operation does to the sums. */
  lemma Appended(ops: seq<Op>, op: Op)
    ensures var n := ops + [op];
            Slots(n) == Slots(ops) + (if op.Alloc? then 1 else 0) &&
            FreeOps(n) == FreeOps(ops) + (if op.Free? then 1 else 0) &&
            Freed(n) == Freed(ops) + (if op.Free? then {op.slot} else {})
  {
    assert (ops + [op])[..|ops|] == ops;
  }

  lemma NothingYet()
    ensures Slots([]) == 0 && FreeOps([]) == 0 && Freed([]) == {} && Resolved([]) == [] && Index([]) == map[] &&
            Frees([]) == 0
  {
  }

  lemma NextEvent(events: seq<Event>, i: nat)
    requires i < |events|
    ensures var r, e, n := events[..i], events[i], events[..i + 1];
            Frees(n) == Frees(r) + (if e.size == 0 then 1 else 0) &&
            Resolved(n) == Resolved(r) + (if e.size != 0 then [Alloc(e.site, e.size, Slots(Resolved(r)))]
                                          else if e.ptr in Index(r) then [Free(Index(r)[e.ptr])] else []) &&
            Index(n) == (if e.size == 0 then Index(r) - {e.ptr}
                         else if e.ptr != 0 then Index(r)[e.ptr := Slots(Resolved(r))] else Index(r)) &&
            (e.size == 0 && e.ptr in Index(r) ==> Index(r)[e.ptr] < Slots(Resolved(r)))
  {
    assert events[..i + 1][..i] == events[..i];
    ResolvedIsWellFormed(events[..i]);
    Partition(Resolved(events[..i]));
  }

  /** freed marks the slots some free names. */
  ghost predicate Marks(freed: seq<bool>, ops: seq<Op>) {
    |freed| == Slots(ops) && forall s :: 0 <= s < |freed| ==> (freed[s] <==> s in Freed(ops))
  }

  lemma FreshSlot(events: seq<Event>, i: nat)
    requires i <= |events|
    ensures Slots(Resolved(events[..i])) !in Freed(Resolved(events[..i]))
  {
    ResolvedIsWellFormed(events[..i]);
    Partition(Resolved(events[..i]));
  }

  method Resolve(events: seq<Event>) returns (ops: seq<Op>, leaked: seq<nat>, allocs: nat, frees: nat, matched: nat)
    ensures ops == Resolved(events) && allocs == Allocations(events) && frees == Frees(events) && matched == FreeOps(ops)
    ensures Distinct(leaked) && forall s :: s in leaked <==> s in Open(ops)
  {
    hide Open, WellFormed, Resolved, Index, Slots, Freed, FreeOps, Frees, Allocations;
    var index: map<Ptr, nat> := map[];
    var freed: seq<bool> := [];
    ops, allocs, frees, matched := [], 0, 0, 0;
    NothingYet();
    var i := 0;
    while i < |events|
      invariant 0 <= i <= |events| && ops == Resolved(events[..i]) && index == Index(events[..i])
      invariant allocs == Slots(ops) && frees == Frees(events[..i]) && matched == FreeOps(ops) && Marks(freed, ops)
    {
      var ev := events[i];
      NextEvent(events, i);
      if ev.size != 0 {
        var slot := allocs;
        allocs := allocs + 1;
        Appended(ops, Alloc(ev.site, ev.size, slot));
        FreshSlot(events, i);
        ops := ops + [Alloc(ev.site, ev.size, slot)];
        freed := freed + [false];
        if ev.ptr != 0 {
          index := index[ev.ptr := slot];
        }
      } else {
        frees := frees + 1;
        if ev.ptr in index {
          Appended(ops, Free(index[ev.ptr]));
          ops := ops + [Free(index[ev.ptr])];
          freed := freed[index[ev.ptr] := true];
          index := index - {ev.ptr};
          matched := matched + 1;
        }
      }
      i := i + 1;
    }
    assert events[..i] == events;
    ResolvedIsWellFormed(events);
    Partition(ops);
    leaked := Leaks(freed);
  }

  method Leaks(freed: seq<bool>) returns (leaked: seq<nat>)
    ensures Distinct(leaked) && forall s :: s in leaked <==> 0 <= s < |freed| && !freed[s]
  {
    leaked := [];
    var s := 0;
    while s < |freed|
      invariant 0 <= s <= |freed|
      invariant Distinct(leaked) && forall x :: x in leaked <==> 0 <= x < s && !freed[x]
    {
      if !freed[s] {
        leaked := leaked + [s];
      }
      s := s + 1;
    }
  }

  // ----- replaying -----

  /** Everything obtained so far is held by an open slot or was freed once, and nothing was freed twice:
      each pointer obtained is named by the number of the call that returned it. */
  ghost predicate Conserved(live: seq<Ptr>, open: set<nat>, freed: seq<Ptr>, obtained: set<Ptr>) {
    Distinct(freed) && (forall p :: p in freed ==> p in obtained) && 0 !in obtained &&
    (forall s :: s in open ==> s < |live| && (live[s] != 0 ==> live[s] in obtained && live[s] !in freed)) &&
    (forall s, t :: s in open && t in open && s != t && live[s] != 0 ==> live[s] != live[t]) &&
    (forall p :: p in obtained && p !in freed ==> exists s :: s in open && live[s] == p)
  }

  lemma ObtainKeeps(live: seq<Ptr>, open: set<nat>, freed: seq<Ptr>, obtained: set<Ptr>, s: nat, p: Ptr)
    requires Conserved(live, open, freed, obtained) && s < |live| && s !in open && (p != 0 ==> p !in obtained)
    ensures Conserved(live[s := p], open + {s}, freed, if p == 0 then obtained else obtained + {p})
  {
    var n := live[s := p];
    var more := if p == 0 then obtained else obtained + {p};
    forall q | q in more && q !in freed
      ensures exists t :: t in open + {s} && n[t] == q
    {
      if q == p {
        assert n[s] == q;
      } else {
        var t :| t in open && live[t] == q;
        assert n[t] == q;
      }
    }
  }

  lemma ReleaseKeeps(live: seq<Ptr>, open: set<nat>, freed: seq<Ptr>, obtained: set<Ptr>, s: nat)
    requires Conserved(live, open, freed, obtained) && s in open
    ensures Conserved(live, open - {s}, if live[s] == 0 then freed else freed + [live[s]], obtained)
  {
    var more := if live[s] == 0 then freed else freed + [live[s]];
    forall q | q in obtained && q !in more
      ensures exists t :: t in open - {s} && live[t] == q
    {
      assert q !in freed;
      var t :| t in open && live[t] == q;
      assert live[s] != 0 ==> live[s] in more;
    }
  }

  class Harness {
    const live: array<Ptr>
    var calls: nat
    ghost var obtained: set<Ptr>
    ghost var freed: seq<Ptr>

    /** Between rounds: everything obtained was freed, exactly once. */
    ghost predicate Settled()
      reads this, live
    {
      Conserved(live[..], {}, freed, obtained) && Numbered()
    }

    /** Calls are numbered from 1, so a fresh pointer is none obtained before. */
    ghost predicate Numbered()
      reads this
    {
      forall p :: p in obtained ==> 0 < p <= calls
    }

    constructor (slots: nat)
      ensures Settled() && fresh(live) && live.Length == slots && obtained == {} && freed == []
    {
      live := new Ptr[slots](_ => 0);
      calls, obtained, freed := 0, {}, [];
    }

    /** Any backend's allocation; refused is the backend returning null. */
    method Allocate(refused: bool) returns (p: Ptr)
      requires Numbered()
      modifies this`calls, this`obtained
      ensures Numbered() && calls == old(calls) + 1 && (refused <==> p == 0) && (p != 0 ==> p !in old(obtained))
      ensures obtained == if p == 0 then old(obtained) else old(obtained) + {p}
    {
      calls := calls + 1;
      p := if refused then 0 else calls;
      if p != 0 {
        obtained := obtained + {p};
      }
    }

    /** Any backend's free; null is a no-op. */
    method Release(p: Ptr)
      modifies this`freed
      ensures freed == if p == 0 then old(freed) else old(freed) + [p]
    {
      if p != 0 {
        freed := freed + [p];
      }
    }

    /** run_pass; refusals says which of the pass's operations meet a null. */
    method RunPass(ops: seq<Op>, refusals: set<nat>)
      requires WellFormed(ops) && Slots(ops) <= live.Length && Settled()
      modifies this, live
      ensures Conserved(live[..], Open(ops), freed, obtained) && Numbered() && calls == old(calls) + Slots(ops)
    {
      hide Conserved, WellFormed, Open, Slots;
      NoneOpen();
      var i := 0;
      while i < |ops|
        invariant 0 <= i <= |ops| && Numbered() && Conserved(live[..], Open(ops[..i]), freed, obtained)
        invariant calls == old(calls) + Slots(ops[..i])
      {
        PrefixWellFormed(ops, i + 1);
        NextOp(ops, i);
        if ops[i].Alloc? {
          ghost var was, had := live[..], obtained;
          var p := Allocate(i in refusals);
          ObtainKeeps(was, Open(ops[..i]), freed, had, ops[i].slot, p);
          live[ops[i].slot] := p;
          assert live[..] == was[ops[i].slot := p];
        } else {
          ReleaseKeeps(live[..], Open(ops[..i]), freed, obtained, ops[i].slot);
          InRange(live[..], Open(ops[..i]), freed, obtained, ops[i].slot);
          Release(live[ops[i].slot]);
        }
        i := i + 1;
      }
      assert ops[..i] == ops;
    }

    /** reclaim_leaked. */
    method ReclaimLeaked(leaked: seq<nat>, ghost open: set<nat>)
      requires Conserved(live[..], open, freed, obtained) && Numbered()
      requires Distinct(leaked) && forall s :: s in leaked <==> s in open
      modifies this`freed, live
      ensures Settled()
    {
      hide Conserved;
      ghost var rest := open;
      var i := 0;
      while i < |leaked|
        invariant 0 <= i <= |leaked| && Numbered() && Conserved(live[..], rest, freed, obtained)
        invariant rest == Elements(leaked[i..])
      {
        var s := leaked[i];
        assert leaked[i..] == [s] + leaked[i + 1..];
        InRange(live[..], rest, freed, obtained, s);
        ReleaseKeeps(live[..], rest, freed, obtained, s);
        rest := rest - {s};
        assert rest == Elements(leaked[i + 1..]);
        if live[s] != 0 {
          ghost var was := live[..];
          Release(live[s]);
          ClearKeeps(was, rest, freed, obtained, s);
          live[s] := 0;
          assert live[..] == was[s := 0];
        }
        i := i + 1;
      }
      assert rest == {};
    }

    /** Any number of rounds: afterwards every pointer ever obtained was freed, exactly once. */
    method Rounds(ops: seq<Op>, leaked: seq<nat>, n: nat, refusals: set<nat>)
      requires WellFormed(ops) && Slots(ops) <= live.Length && Settled()
      requires Distinct(leaked) && forall s :: s in leaked <==> s in Open(ops)
      modifies this, live
      ensures Distinct(freed) && Elements(freed) == obtained && calls == old(calls) + n * Slots(ops)
    {
      hide Conserved, WellFormed, Open, Distinct, Slots;
      var k := 0;
      while k < n
        invariant 0 <= k <= n && Settled() && calls == old(calls) + k * Slots(ops)
      {
        assert (k + 1) * Slots(ops) == k * Slots(ops) + Slots(ops);
        RunPass(ops, refusals);
        ReclaimLeaked(leaked, Open(ops));
        k := k + 1;
      }
      AllFreed(live[..], freed, obtained);
    }
  }

  lemma NoneOpen()
    ensures Open([]) == {} && Slots([]) == 0
  {
  }

  lemma NextOp(ops: seq<Op>, i: nat)
    requires i < |ops| && WellFormed(ops[..i + 1])
    ensures var o := Open(ops[..i]);
            Slots(ops[..i + 1]) == Slots(ops[..i]) + (if ops[i].Alloc? then 1 else 0) &&
            Open(ops[..i + 1]) == (if ops[i].Alloc? then o + {ops[i].slot} else o - {ops[i].slot}) &&
            (ops[i].Free? ==> ops[i].slot in o) &&
            (ops[i].Alloc? ==> ops[i].slot !in o && ops[i].slot < Slots(ops[..i + 1]))
  {
    assert ops[..i + 1][..i] == ops[..i];
    Partition(ops[..i]);
  }

  lemma InRange(live: seq<Ptr>, open: set<nat>, freed: seq<Ptr>, obtained: set<Ptr>, s: nat)
    requires Conserved(live, open, freed, obtained) && s in open
    ensures s < |live|
  {
  }

  lemma ClearKeeps(live: seq<Ptr>, open: set<nat>, freed: seq<Ptr>, obtained: set<Ptr>, s: nat)
    requires Conserved(live, open, freed, obtained) && s < |live| && s !in open
    ensures Conserved(live[s := 0], open, freed, obtained)
  {
    var n := live[s := 0];
    forall q | q in obtained && q !in freed
      ensures exists t :: t in open && n[t] == q
    {
      var t :| t in open && live[t] == q;
      assert n[t] == q;
    }
  }

  lemma AllFreed(live: seq<Ptr>, freed: seq<Ptr>, obtained: set<Ptr>)
    requires Conserved(live, {}, freed, obtained)
    ensures Distinct(freed) && Elements(freed) == obtained
  {
  }
}
