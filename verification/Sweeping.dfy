/** An uninterrupted sweep of the reaper: exactly which segments it gives back, in each mode. */
module Sweeping {
  import opened Lists
  import opened Segments
  import opened Reclamation
  import opened ReclamationSteps
  import opened ReclamationResults

  /** The reaper takes h: retired, its counter zero; tagged for reaping in conservative mode; not yet
      decommitted in madvise mode. */
  predicate Picked(s: State, want: Addr -> bool, h: Addr) {
    Reclaimable(s, h) && (s.mode.Conservative? ==> want(h)) && (s.mode.Madvise? ==> !s.segs[h].decommitted)
  }

  /** Those of q it takes, in order. */
  function Picks(s: State, want: Addr -> bool, q: seq<Addr>): (p: seq<Addr>)
    ensures forall h :: h in p <==> h in q && Picked(s, want, h)
    decreases |q|
  {
    if q == [] then [] else (if Picked(s, want, q[0]) then [q[0]] else []) + Picks(s, want, q[1..])
  }

  lemma {:induction false} PicksDistinct(s: State, want: Addr -> bool, q: seq<Addr>)
    requires Distinct(q)
    ensures Distinct(Picks(s, want, q))
    decreases |q|
  {
    hide Picked;
    if q != [] {
      PicksDistinct(s, want, q[1..]);
      var p := Picks(s, want, q[1..]);
      assert forall i :: 0 <= i < |p| ==> p[i] in p;
      assert forall i :: 0 <= i < |q[1..]| ==> q[1..][i] == q[i + 1];
    }
  }

  // ----- the scan -----

  /** One pair of steps an entry; the second is skipped when the entry is not retired. */
  function ScanSteps(q: seq<Addr>, want: Addr -> bool): seq<Step>
    decreases |q|
  {
    if q == [] then [] else [SweepRead] + ([SweepWeigh(want(q[0]))] + ScanSteps(q[1..], want))
  }

  lemma Skip(s: State, step: Step, rest: seq<Step>)
    requires !Enabled(s, step)
    ensures Exec(s, [step] + rest) == Exec(s, rest)
  {
    hide Enabled, Next;
    assert ([step] + rest)[1..] == rest;
  }

  lemma ReadRuns(s: State, i: nat, elig: seq<Addr>)
    requires s.reaper == Scanning(i, elig) && i < |s.index| && s.index[i] in s.segs
    ensures Enabled(s, SweepRead) &&
            Next(s, SweepRead) == Ok(s.(reaper := if s.segs[s.index[i]].retired then Weighing(i, elig) else Scanning(i + 1, elig)))
  {
  }

  lemma WeighRuns(s: State, i: nat, elig: seq<Addr>, want: Addr -> bool)
    requires s.reaper == Weighing(i, elig) && i < |s.index| && s.index[i] in s.segs && s.segs[s.index[i]].retired
    ensures Enabled(s, SweepWeigh(want(s.index[i]))) &&
            Next(s, SweepWeigh(want(s.index[i]))) ==
            Ok(s.(reaper := Scanning(i + 1, elig + if Picked(s, want, s.index[i]) then [s.index[i]] else [])))
  {
    assert elig + [] == elig;
  }

  lemma EntryScanned(s: State, i: nat, elig: seq<Addr>, want: Addr -> bool, rest: seq<Step>)
    requires s.reaper == Scanning(i, elig) && i < |s.index| && s.index[i] in s.segs
    ensures Exec(s, [SweepRead] + ([SweepWeigh(want(s.index[i]))] + rest)) ==
            Exec(s.(reaper := Scanning(i + 1, elig + if Picked(s, want, s.index[i]) then [s.index[i]] else [])), rest)
  {
    hide Exec, Enabled, Next;
    var h := s.index[i];
    ReadRuns(s, i, elig);
    if s.segs[h].retired {
      var m := s.(reaper := Weighing(i, elig));
      Go(s, SweepRead, [SweepWeigh(want(h))] + rest, m);
      WeighRuns(m, i, elig, want);
      assert Picked(m, want, h) == Picked(s, want, h);
      Go(m, SweepWeigh(want(h)), rest, s.(reaper := Scanning(i + 1, elig + if Picked(s, want, h) then [h] else [])));
    } else {
      var m := s.(reaper := Scanning(i + 1, elig));
      Go(s, SweepRead, [SweepWeigh(want(h))] + rest, m);
      NotWeighing(m, want(h));
      Skip(m, SweepWeigh(want(h)), rest);
      assert elig + [] == elig;
    }
  }

  lemma NotWeighing(s: State, wanted: bool)
    requires s.reaper.Scanning?
    ensures !Enabled(s, SweepWeigh(wanted))
  {
  }

  lemma {:induction false} Scans(s: State, i: nat, elig: seq<Addr>, want: Addr -> bool, rest: seq<Step>)
    requires s.reaper == Scanning(i, elig) && i <= |s.index| && forall h :: h in s.index ==> h in s.segs
    ensures Exec(s, ScanSteps(s.index[i..], want) + rest) ==
            Exec(s.(reaper := Scanning(|s.index|, elig + Picks(s, want, s.index[i..]))), rest)
    decreases |s.index| - i
  {
    hide Exec, Picked, Enabled, Next, Picks, ScanSteps;
    var q := s.index[i..];
    if q == [] {
      NothingToScan(s, want, rest);
      assert elig + [] == elig;
    } else {
      assert q[1..] == s.index[i + 1..] && q[0] == s.index[i];
      var more := elig + if Picked(s, want, q[0]) then [q[0]] else [];
      var m := s.(reaper := Scanning(i + 1, more));
      ScanUnrolls(want, q, rest);
      PicksUnroll(s, want, q, elig);
      EntryScanned(s, i, elig, want, ScanSteps(q[1..], want) + rest);
      Scans(m, i + 1, more, want, rest);
      SamePicks(s, m, want, q[1..]);
    }
  }

  lemma NothingToScan(s: State, want: Addr -> bool, rest: seq<Step>)
    ensures ScanSteps([], want) + rest == rest && Picks(s, want, []) == []
  {
  }

  lemma Regrouped<T>(a: seq<T>, b: seq<T>, c: seq<T>, d: seq<T>)
    ensures (a + (b + c)) + d == a + (b + (c + d)) && (a + b) + c == a + (b + c)
  {
  }

  lemma ScanUnrolls(want: Addr -> bool, q: seq<Addr>, rest: seq<Step>)
    requires q != []
    ensures ScanSteps(q, want) + rest == [SweepRead] + ([SweepWeigh(want(q[0]))] + (ScanSteps(q[1..], want) + rest))
  {
    Regrouped([SweepRead], [SweepWeigh(want(q[0]))], ScanSteps(q[1..], want), rest);
  }

  lemma PicksUnroll(s: State, want: Addr -> bool, q: seq<Addr>, elig: seq<Addr>)
    requires q != []
    ensures (elig + if Picked(s, want, q[0]) then [q[0]] else []) + Picks(s, want, q[1..]) == elig + Picks(s, want, q)
  {
    hide Picked;
    Regrouped(elig, if Picked(s, want, q[0]) then [q[0]] else [], Picks(s, want, q[1..]), []);
  }

  lemma {:induction false} SamePicks(s: State, n: State, want: Addr -> bool, q: seq<Addr>)
    requires n.segs == s.segs && n.mode == s.mode
    ensures Picks(n, want, q) == Picks(s, want, q)
    decreases |q|
  {
    if q != [] {
      SamePicks(s, n, want, q[1..]);
    }
  }

  // ----- giving back -----

  function Without<T>(m: map<Addr, T>, gone: set<Addr>): map<Addr, T> {
    map c | c in m && Of(c) !in gone :: m[c]
  }

  /** The index after the swap-removals. */
  function Unlisted(index: seq<Addr>, gone: seq<Addr>): seq<Addr>
    decreases |gone|
  {
    if gone == [] then index else Unlisted(SwapRemove(index, gone[0]), gone[1..])
  }

  lemma {:induction false} UnlistedExactly(index: seq<Addr>, gone: seq<Addr>)
    requires Distinct(index)
    ensures Distinct(Unlisted(index, gone)) && forall b :: b in Unlisted(index, gone) <==> b in index && b !in gone
    decreases |gone|
  {
    hide SwapRemove, Distinct;
    if gone != [] {
      SwapRemoved(index, gone[0], 0);
      UnlistedExactly(SwapRemove(index, gone[0]), gone[1..]);
      assert forall b :: b in gone <==> b == gone[0] || b in gone[1..];
    }
  }

  function FreeSteps(n: nat): seq<Step> { if n == 0 then [] else [Unregister] + ([Unmap] + FreeSteps(n - 1)) }

  /** s with the segments of gone unregistered and unmapped. */
  function Freed(s: State, gone: seq<Addr>, r: Reaper): State {
    s.(segs := s.segs - Elements(gone), link := Without(s.link, Elements(gone)), place := Without(s.place, Elements(gone)),
       index := Unlisted(s.index, gone), reaper := r)
  }

  lemma FreeOne(s: State, elig: seq<Addr>, rest: seq<Step>)
    requires s.reaper == Reaping(elig) && elig != [] && !s.mode.Madvise? && elig[0] in s.segs
    ensures var b := elig[0];
            Exec(s, [Unregister] + ([Unmap] + rest)) ==
            Exec(s.(segs := s.segs - {b}, link := Discard(s.link, b), place := Discard(s.place, b),
                    index := SwapRemove(s.index, b), reaper := Reaping(elig[1..])), rest)
  {
    hide Exec, Of, SwapRemove, Enabled, Next;
    var b := elig[0];
    var m := s.(index := SwapRemove(s.index, b), reaper := Unmapping(elig));
    UnregisterRuns(s, elig);
    Go(s, Unregister, [Unmap] + rest, m);
    UnmapRuns(m, elig);
    Go(m, Unmap, rest, m.(segs := s.segs - {b}, link := Discard(s.link, b), place := Discard(s.place, b),
                          reaper := Reaping(elig[1..])));
  }

  lemma UnregisterRuns(s: State, elig: seq<Addr>)
    requires s.reaper == Reaping(elig) && elig != [] && !s.mode.Madvise?
    ensures Enabled(s, Unregister) &&
            Next(s, Unregister) == Ok(s.(index := SwapRemove(s.index, elig[0]), reaper := Unmapping(elig)))
  {
    hide SwapRemove;
  }

  lemma UnmapRuns(s: State, elig: seq<Addr>)
    requires s.reaper == Unmapping(elig) && elig != [] && elig[0] in s.segs
    ensures var b := elig[0];
            Enabled(s, Unmap) &&
            Next(s, Unmap) == Ok(s.(segs := s.segs - {b}, link := Discard(s.link, b), place := Discard(s.place, b),
                                    reaper := Reaping(elig[1..])))
  {
    hide Of;
  }

  lemma WithoutMore<T>(m: map<Addr, T>, gone: seq<Addr>)
    requires gone != []
    ensures Without(Discard(m, gone[0]), Elements(gone[1..])) == Without(m, Elements(gone))
  {
    hide Of;
    assert forall b :: b in gone <==> b == gone[0] || b in gone[1..];
  }

  lemma {:induction false} Frees(s: State, elig: seq<Addr>, rest: seq<Step>)
    requires s.reaper == Reaping(elig) && !s.mode.Madvise? && Distinct(elig) && forall b :: b in elig ==> b in s.segs
    ensures Exec(s, FreeSteps(|elig|) + rest) == Exec(Freed(s, elig, Reaping([])), rest)
    decreases |elig|
  {
    hide Exec, Of, Without, SwapRemove;
    if elig == [] {
      assert [] + rest == rest;
      NoneFreed(s);
    } else {
      var b, more := elig[0], elig[1..];
      var m := s.(segs := s.segs - {b}, link := Discard(s.link, b), place := Discard(s.place, b),
                  index := SwapRemove(s.index, b), reaper := Reaping(more));
      assert FreeSteps(|elig|) + rest == [Unregister] + ([Unmap] + (FreeSteps(|more|) + rest));
      FreeOne(s, elig, FreeSteps(|more|) + rest);
      Frees(m, more, rest);
      WithoutMore(s.link, elig);
      WithoutMore(s.place, elig);
      assert Elements(elig) == {b} + Elements(more);
      assert m.segs - Elements(more) == s.segs - Elements(elig);
    }
  }

  lemma NoneFreed(s: State)
    requires s.reaper == Reaping([])
    ensures Freed(s, [], Reaping([])) == s
  {
    assert Elements<Addr>([]) == {};
    assert s.segs - {} == s.segs;
  }

  function DecommitSteps(n: nat): seq<Step> { if n == 0 then [] else [Decommit] + DecommitSteps(n - 1) }

  function Marked(segs: map<Addr, Seg>, gone: set<Addr>): map<Addr, Seg> {
    map b | b in segs :: if b in gone then segs[b].(decommitted := true) else segs[b]
  }

  /** s with the payloads of gone discarded; the segments stay mapped and indexed. */
  function Emptied(s: State, gone: seq<Addr>, r: Reaper): State {
    s.(segs := Marked(s.segs, Elements(gone)), link := Without(s.link, Elements(gone)), reaper := r)
  }

  lemma {:induction false} Empties(s: State, elig: seq<Addr>, rest: seq<Step>)
    requires s.reaper == Reaping(elig) && s.mode.Madvise? && Distinct(elig) && forall b :: b in elig ==> b in s.segs
    ensures Exec(s, DecommitSteps(|elig|) + rest) == Exec(Emptied(s, elig, Reaping([])), rest)
    decreases |elig|
  {
    hide Exec, Of, Without;
    if elig == [] {
      assert [] + rest == rest;
      NoneEmptied(s);
    } else {
      var b, more := elig[0], elig[1..];
      var m := s.WithSeg(b, s.segs[b].(decommitted := true)).(link := Discard(s.link, b), reaper := Reaping(more));
      assert DecommitSteps(|elig|) + rest == [Decommit] + (DecommitSteps(|more|) + rest);
      DecommitRuns(s, elig);
      Go(s, Decommit, DecommitSteps(|more|) + rest, m);
      Empties(m, more, rest);
      WithoutMore(s.link, elig);
      assert Elements(elig) == {b} + Elements(more);
      assert Marked(m.segs, Elements(more)) == Marked(s.segs, Elements(elig));
    }
  }

  lemma DecommitRuns(s: State, elig: seq<Addr>)
    requires s.reaper == Reaping(elig) && s.mode.Madvise? && elig != [] && elig[0] in s.segs
    ensures Enabled(s, Decommit) &&
            Next(s, Decommit) == Ok(s.WithSeg(elig[0], s.segs[elig[0]].(decommitted := true))
                                     .(link := Discard(s.link, elig[0]), reaper := Reaping(elig[1..])))
  {
    hide Of;
  }

  lemma NoneEmptied(s: State)
    requires s.reaper == Reaping([])
    ensures Emptied(s, [], Reaping([])) == s
  {
    assert Elements<Addr>([]) == {};
    assert Marked(s.segs, {}) == s.segs;
  }

  // ----- the whole sweep -----

  function SweepSteps(s: State, want: Addr -> bool): seq<Step> {
    var n := |Picks(s, want, s.index)|;
    [SweepStart] + (ScanSteps(s.index, want) + ([SweepUnlock] +
    ((if s.mode.Madvise? then DecommitSteps(n) else FreeSteps(n)) + [SweepEnd])))
  }

  /** Run without interruption, a sweep gives back exactly the indexed segments it picks: in eager and in
      conservative mode they are unmapped and leave the index, in madvise mode they are decommitted and
      stay in it. Nothing else changes. */
  lemma SweepIsExact(s: State, want: Addr -> bool)
    requires Reached(s) && s.reaper.Resting?
    ensures var gone := Picks(s, want, s.index);
            Exec(s, SweepSteps(s, want)) == Ok(if s.mode.Madvise? then Emptied(s, gone, Resting) else Freed(s, gone, Resting))
    ensures var index := Unlisted(s.index, Picks(s, want, s.index));
            Distinct(index) && forall b :: b in index <==> b in s.index && !Picked(s, want, b)
  {
    hide Exec, Inv, Reached, Picks, Picked, Unlisted, ScanSteps, FreeSteps, DecommitSteps, Freed, Emptied, Enabled, Next;
    ReachedInv(s);
    IndexFacts(s);
    var gone := Picks(s, want, s.index);
    UnlistedExactly(s.index, gone);
    PicksDistinct(s, want, s.index);
    var back := (if s.mode.Madvise? then DecommitSteps(|gone|) else FreeSteps(|gone|)) + [SweepEnd];
    Snapshots(s, want, back);
    var c := s.(reaper := Reaping(gone));
    if s.mode.Madvise? {
      Empties(c, gone, [SweepEnd]);
      EmptyingEnds(s, gone);
    } else {
      Frees(c, gone, [SweepEnd]);
      FreeingEnds(s, gone);
    }
  }

  lemma Snapshots(s: State, want: Addr -> bool, back: seq<Step>)
    requires s.reaper.Resting? && forall b :: b in s.index ==> b in s.segs
    ensures Exec(s, [SweepStart] + (ScanSteps(s.index, want) + ([SweepUnlock] + back))) ==
            Exec(s.(reaper := Reaping(Picks(s, want, s.index))), back)
  {
    hide Exec, Picks, ScanSteps, Enabled, Next;
    var gone := Picks(s, want, s.index);
    StartsAndUnlocks(s, gone);
    var a, m := s.(reaper := Scanning(0, [])), s.(reaper := Scanning(|s.index|, gone));
    Go(s, SweepStart, ScanSteps(s.index, want) + ([SweepUnlock] + back), a);
    assert a.index[0..] == s.index && [] + gone == gone;
    Scans(a, 0, [], want, [SweepUnlock] + back);
    SamePicks(s, a, want, s.index);
    Go(m, SweepUnlock, back, s.(reaper := Reaping(gone)));
  }

  lemma StartsAndUnlocks(s: State, gone: seq<Addr>)
    requires s.reaper.Resting?
    ensures Enabled(s, SweepStart) && Next(s, SweepStart) == Ok(s.(reaper := Scanning(0, [])))
    ensures var m := s.(reaper := Scanning(|s.index|, gone));
            Enabled(m, SweepUnlock) && Next(m, SweepUnlock) == Ok(s.(reaper := Reaping(gone)))
  {
  }

  lemma FreeingEnds(s: State, gone: seq<Addr>)
    ensures Exec(Freed(s.(reaper := Reaping(gone)), gone, Reaping([])), [SweepEnd]) == Ok(Freed(s, gone, Resting))
  {
    hide Exec, Without, Unlisted;
    GoLast(Freed(s.(reaper := Reaping(gone)), gone, Reaping([])), SweepEnd, Freed(s, gone, Resting));
  }

  lemma EmptyingEnds(s: State, gone: seq<Addr>)
    ensures Exec(Emptied(s.(reaper := Reaping(gone)), gone, Reaping([])), [SweepEnd]) == Ok(Emptied(s, gone, Resting))
  {
    hide Exec, Without, Marked;
    GoLast(Emptied(s.(reaper := Reaping(gone)), gone, Reaping([])), SweepEnd, Emptied(s, gone, Resting));
  }

  lemma IndexFacts(s: State)
    requires Inv(s)
    ensures Distinct(s.index) && forall b :: b in s.index ==> b in s.segs
  {
    hide ChunksOk, SegsOk, CellsOk, ThreadsOk, Distinct;
  }

  /** In eager mode: exactly the indexed segments that are retired with counter zero. */
  lemma EagerSweep(s: State, want: Addr -> bool, b: Addr)
    requires Reached(s) && s.reaper.Resting? && s.mode.Eager?
    ensures var o := Exec(s, SweepSteps(s, want));
            o.Ok? && (b in o.s.segs <==> b in s.segs && !(b in s.index && Reclaimable(s, b))) &&
            (b in o.s.index <==> b in s.index && !Reclaimable(s, b)) &&
            (b in o.s.segs ==> o.s.segs[b] == s.segs[b])
  {
    hide Exec, Reached, Picks, Without, Unlisted, SweepSteps;
    SweepIsExact(s, want);
    var gone := Picks(s, want, s.index);
    assert b in Elements(gone) <==> b in gone;
  }
}
