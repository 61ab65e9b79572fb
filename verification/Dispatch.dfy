/** The dispatch table: linear probing without deletion, refining a map from call-site ids to
    routines, and the generation-stamped inline caches in front of it. */
module Dispatch {
  import opened Lists
  import opened Probing
  import E = Epoch
  import EpochResults

  const TABLE_SIZE: nat := 4096

  type Tid = nat
  type Routine = nat

  /** id 0 marks an empty slot, fn 0 the absence of a routine. */
  datatype Entry = Entry(fn: Routine, id: Key)

  datatype Cached = Cached(id: Key, fn: Routine, gen: nat)

  function Home(id: Key): (h: nat)
    ensures h < TABLE_SIZE
  {
    id % TABLE_SIZE
  }

  lemma HomeFits(n: nat)
    requires n == TABLE_SIZE
    ensures Homes(n, Home)
  {
    hide Home;
    forall k: Key
      ensures Home(k) < n
    {
      assert Home(k) < TABLE_SIZE;
    }
  }

  function Ids(es: seq<Entry>): (ks: seq<Key>)
    ensures |ks| == |es| && forall i :: 0 <= i < |es| ==> ks[i] == es[i].id
  {
    seq(|es|, i requires 0 <= i < |es| => es[i].id)
  }

  ghost predicate Sound(es: seq<Entry>) {
    |es| == TABLE_SIZE && Reachable(Ids(es), Home) && Single(Ids(es))
  }

  /** The routine some slot holds for id. */
  ghost function At(es: seq<Entry>, id: Key): Routine
    requires id in Ids(es)
  {
    var i :| 0 <= i < |es| && Ids(es)[i] == id;
    es[i].fn
  }

  /** The map the table stands for: the ids ever installed, with their routine or 0. */
  ghost function Routes(es: seq<Entry>): map<Key, Routine> {
    map id | id in Ids(es) && id != 0 :: At(es, id)
  }

  lemma RouteAt(es: seq<Entry>, i: nat)
    requires Single(Ids(es)) && i < |es| && es[i].id != 0
    ensures es[i].id in Routes(es) && Routes(es)[es[i].id] == es[i].fn
  {
    var id := es[i].id;
    assert Ids(es)[i] == id;
    var j :| 0 <= j < |es| && Ids(es)[j] == id && At(es, id) == es[j].fn;
    assert i == j;
  }

  /** Writing id and fn to a slot that holds id, or to a free one when no slot holds id, updates the map. */
  lemma RouteStored(es: seq<Entry>, i: nat, id: Key, fn: Routine)
    requires i < |es| && id != 0 && Single(Ids(es)) && Single(Ids(es[i := Entry(fn, id)]))
    requires es[i].id == id || (es[i].id == 0 && id !in Ids(es))
    ensures Routes(es[i := Entry(fn, id)]) == Routes(es)[id := fn]
  {
    hide Routes, Single, Ids, At;
    var n := es[i := Entry(fn, id)];
    forall k
      ensures (k in Routes(n) <==> k == id || k in Routes(es)) &&
              (k in Routes(n) ==> Routes(n)[k] == Routes(es)[id := fn][k])
    {
      Routed(es, k);
      Routed(n, k);
      if k in Routes(n) {
        var j :| 0 <= j < |n| && n[j].id == k;
        RouteAt(n, j);
        if j != i {
          RouteAt(es, j);
        }
      }
      if k in Routes(es) {
        var j :| 0 <= j < |es| && es[j].id == k;
        RouteAt(es, j);
        RouteAt(n, j);
      }
      RouteAt(n, i);
    }
  }

  lemma Routed(es: seq<Entry>, k: Key)
    ensures k in Routes(es) <==> k != 0 && exists j :: 0 <= j < |es| && es[j].id == k
  {
    if k in Ids(es) {
      var j :| 0 <= j < |es| && Ids(es)[j] == k;
      assert es[j].id == k;
    }
    if j :| 0 <= j < |es| && es[j].id == k {
      assert Ids(es)[j] == k;
    }
  }

  // ----- the protocol's steps of one uninterrupted operation -----

  datatype Words = Words(routes: map<Key, Routine>, gen: nat, caches: map<Tid, Cached>)
  {
    function Cache(t: Tid): Cached { if t in caches then caches[t] else Cached(0, 0, 0) }
  }

  /** The dispatcher's words are those of the protocol's state s. */
  ghost predicate Shows(v: Words, s: E.State) {
    v.routes == s.table && v.gen == s.gen &&
    forall t: Tid :: v.Cache(t) == Cached(s.Cache(t).id, s.Cache(t).fn, s.Cache(t).gen)
  }

  lemma Installs(s: E.State, id: Key, fn: Routine)
    requires s.bg == E.Claiming(id, fn)
    ensures var n := E.Exec(s, [E.Claim, E.Install, E.Announce]);
            n == s.(table := s.table[id := fn], gen := s.gen + 1, bg := E.Background.Resting)
  {
    hide E.Exec, E.DoEnter, E.DoRun, E.DoDeopt, E.DoTake, E.DoScan;
    var m := s.(table := s.table[id := s.Entry(id)], bg := E.Installing(id, fn));
    assert [E.Claim, E.Install, E.Announce] == [E.Claim] + [E.Install, E.Announce];
    EpochResults.ExecMore(s, E.Claim, [E.Install, E.Announce]);
    EpochResults.Announced(m, id, fn);
    assert s.table[id := s.Entry(id)][id := fn] == s.table[id := fn];
  }

  lemma Clears(s: E.State, t: Tid, page: Routine)
    requires s.Pc(t) == E.Reverting(page) && page in s.site
    ensures E.Enabled(s, E.Clear(t)) && E.Do(s, E.Clear(t)) == E.DoClear(s, t, page)
  {
    hide E.DoEnter, E.DoRun, E.DoInstall, E.DoTake, E.DoScan, E.DoClear;
  }

  /** Of a page compiled for id, by a thread whose guard failed in it. */
  lemma Reverts(s: E.State, t: Tid, page: Routine, id: Key)
    requires s.Pc(t) == E.Reverting(page) && page in s.site && s.site[page] == id
    ensures var n := E.Exec(s, [E.Clear(t), E.BumpGen(t)]);
            n == s.(table := if id in s.table then s.table[id := 0] else s.table,
                    gen := s.gen + if id in s.table then 1 else 0, pcs := n.pcs) &&
            n.Pc(t) == E.Queueing(page)
  {
    hide E.Exec, E.Do, E.Enabled;
    assert [E.Clear(t), E.BumpGen(t)] == [E.Clear(t)] + [E.BumpGen(t)];
    Clears(s, t, page);
    EpochResults.ExecMore(s, E.Clear(t), [E.BumpGen(t)]);
    if id in s.table {
      Bumps(s.(table := s.table[id := 0], pcs := s.pcs[t := E.Bumping(page)]), t, page);
    } else {
      NotBumping(s.Goto(t, E.Queueing(page)), t, page);
      Skips(s.Goto(t, E.Queueing(page)), E.BumpGen(t));
    }
  }

  lemma Bumps(s: E.State, t: Tid, page: Routine)
    requires s.Pc(t) == E.Bumping(page)
    ensures var n := E.Exec(s, [E.BumpGen(t)]);
            n == s.(gen := s.gen + 1, pcs := n.pcs) && n.Pc(t) == E.Queueing(page)
  {
    hide E.Exec, E.Do, E.Enabled;
    EpochResults.BumpStep(s, t, page);
    EpochResults.ExecOne(s, E.BumpGen(t));
  }

  lemma NotBumping(s: E.State, t: Tid, page: Routine)
    requires s.Pc(t) == E.Queueing(page)
    ensures !E.Enabled(s, E.BumpGen(t))
  {
  }

  lemma Skips(s: E.State, step: E.Step)
    requires !E.Enabled(s, step)
    ensures E.Exec(s, [step]) == s
  {
    hide E.Do, E.Enabled;
    assert [step][1..] == [];
  }

  /** A cache hit answers with the cached routine, a miss with the table's, which it caches. */
  lemma Looks(s: E.State, t: Tid, id: Key)
    requires s.Pc(t) == E.GenLoad(id)
    ensures var n, c := E.Exec(s, [E.LoadGen(t), E.Lookup(t)]), s.Cache(t);
            if id == c.id && s.gen == c.gen then n == s.(pcs := n.pcs) && n.Pc(t) == E.Dispatch(c.fn)
            else n == s.(caches := s.caches[t := E.Cached(id, s.Entry(id), s.gen)], pcs := n.pcs) &&
                 n.Pc(t) == E.Dispatch(s.Entry(id))
  {
    hide E.Exec, E.DoEnter, E.DoDeopt, E.DoInstall, E.DoTake, E.DoScan;
    assert [E.LoadGen(t), E.Lookup(t)] == [E.LoadGen(t)] + [E.Lookup(t)];
    EpochResults.ExecMore(s, E.LoadGen(t), [E.Lookup(t)]);
    var m := E.Do(s, E.LoadGen(t));
    if m.Pc(t).Looking? {
      EpochResults.ExecOne(m, E.Lookup(t));
    } else {
      Skips(m, E.Lookup(t));
    }
  }

  lemma SameCaches(v: Words, w: Words, s: E.State, n: E.State)
    requires Shows(v, s) && w.caches == v.caches && n.caches == s.caches && w.routes == n.table && w.gen == n.gen
    ensures Shows(w, n)
  {
    forall t: Tid
      ensures w.Cache(t) == Cached(n.Cache(t).id, n.Cache(t).fn, n.Cache(t).gen)
    {
      assert v.Cache(t) == w.Cache(t) && s.Cache(t) == n.Cache(t);
    }
  }

  /** What Install leaves, the protocol's three installing steps lead to. */
  lemma InstallShows(v: Words, s: E.State, id: Key, fn: Routine)
    requires Shows(v, s) && s.bg == E.Claiming(id, fn)
    ensures Shows(v.(routes := v.routes[id := fn], gen := v.gen + 1), E.Exec(s, [E.Claim, E.Install, E.Announce]))
  {
    hide E.Exec;
    Installs(s, id, fn);
    SameCaches(v, v.(routes := v.routes[id := fn], gen := v.gen + 1), s, E.Exec(s, [E.Claim, E.Install, E.Announce]));
  }

  /** What Revert leaves, the steps of a thread whose guard failed lead to. */
  lemma RevertShows(v: Words, s: E.State, t: Tid, page: Routine, id: Key)
    requires Shows(v, s) && s.Pc(t) == E.Reverting(page) && page in s.site && s.site[page] == id
    ensures Shows(if id in v.routes then v.(routes := v.routes[id := 0], gen := v.gen + 1) else v,
                  E.Exec(s, [E.Clear(t), E.BumpGen(t)]))
  {
    hide E.Exec;
    Reverts(s, t, page, id);
    var w := if id in v.routes then v.(routes := v.routes[id := 0], gen := v.gen + 1) else v;
    SameCaches(v, w, s, E.Exec(s, [E.Clear(t), E.BumpGen(t)]));
  }

  /** What a table that answers v.routes answers. */
  function AnswerOf(v: Words, id: Key): Routine { if id in v.routes then v.routes[id] else 0 }

  /** What Route leaves, and answers, a thread's generation check and lookup lead to. */
  lemma RouteShows(v: Words, s: E.State, t: Tid, id: Key)
    requires Shows(v, s) && s.Pc(t) == E.GenLoad(id)
    ensures var hit := id == v.Cache(t).id && v.gen == v.Cache(t).gen;
            var n := E.Exec(s, [E.LoadGen(t), E.Lookup(t)]);
            Shows(if hit then v else v.(caches := v.caches[t := Cached(id, AnswerOf(v, id), v.gen)]), n) &&
            n.Pc(t) == E.Dispatch(if hit then v.Cache(t).fn else AnswerOf(v, id))
  {
    hide E.Exec, Shows;
    Looks(s, t, id);
    ShownCache(v, s, t);
    var n := E.Exec(s, [E.LoadGen(t), E.Lookup(t)]);
    assert s.Entry(id) == AnswerOf(v, id);
    if id == v.Cache(t).id && v.gen == v.Cache(t).gen {
      SameCaches(v, v, s, n);
    } else {
      OneCache(v, s, n, t, Cached(id, AnswerOf(v, id), v.gen));
    }
  }

  lemma ShownCache(v: Words, s: E.State, t: Tid)
    requires Shows(v, s)
    ensures v.routes == s.table && v.gen == s.gen && v.Cache(t) == Cached(s.Cache(t).id, s.Cache(t).fn, s.Cache(t).gen)
  {
  }

  lemma OneCache(v: Words, s: E.State, n: E.State, t: Tid, c: Cached)
    requires Shows(v, s) && n.caches == s.caches[t := E.Cached(c.id, c.fn, c.gen)] && n.table == s.table && n.gen == s.gen
    ensures Shows(v.(caches := v.caches[t := c]), n)
  {
    var w := v.(caches := v.caches[t := c]);
    forall u: Tid
      ensures w.Cache(u) == Cached(n.Cache(u).id, n.Cache(u).fn, n.Cache(u).gen)
    {
      assert u != t ==> v.Cache(u) == w.Cache(u) && s.Cache(u) == n.Cache(u);
    }
  }

  class Dispatcher {
    const table: array<Entry>
    var gen: nat
    var caches: map<Tid, Cached>

    ghost function Installed(): map<Key, Routine>
      reads this, table
    {
      Routes(table[..])
    }

    /** What a lookup of id answers. */
    ghost function Answer(id: Key): Routine
      reads this, table
    {
      if id in Installed() then Installed()[id] else 0
    }

    function Cache(t: Tid): Cached
      reads this
    {
      if t in caches then caches[t] else Cached(0, 0, 0)
    }

    /** A cache stamped with the current generation agrees with the table. */
    ghost predicate Valid()
      reads this, table
    {
      Sound(table[..]) && gen >= 1 &&
      forall t :: Cache(t).gen <= gen && (Cache(t).gen == gen ==> Cache(t).fn == Answer(Cache(t).id))
    }

    /** Table, generation and caches as a value; Shows relates it to the protocol's state. */
    ghost function View(): Words
      reads this, table
    {
      Words(Installed(), gen, caches)
    }

    constructor ()
      ensures Valid() && fresh(table) && Installed() == map[] && gen == 1
    {
      hide Home;
      table := new Entry[TABLE_SIZE](_ => Entry(0, 0));
      gen, caches := 1, map[];
      new;
      HomeFits(TABLE_SIZE);
    }

    /** The slot of id, else the empty slot where it would go, else none. */
    method Find(id: Key) returns (found: bool, i: nat)
      requires Sound(table[..]) && id != 0
      ensures found ==> i < TABLE_SIZE && (table[i].id == id ||
                        (table[i].id == 0 && id !in Ids(table[..]) && Probed(Ids(table[..]), Home, id, i)))
      ensures !found ==> id !in Ids(table[..]) && 0 !in Ids(table[..])
    {
      hide Home;
      HomeFits(TABLE_SIZE);
      ghost var ks := Ids(table[..]);
      var slot, scanned: nat := Home(id), 0;
      i := slot;
      ProbedStart(ks, Home, id);
      while scanned < TABLE_SIZE
        invariant scanned < TABLE_SIZE && i < TABLE_SIZE && Dist(TABLE_SIZE, slot, i) == scanned
        invariant Probed(ks, Home, id, i)
      {
        assert ks[i] == table[i].id;
        if table[i].id == id {
          return true, i;
        }
        if table[i].id == 0 {
          Absent(ks, Home, id, i);
          return true, i;
        }
        if scanned + 1 == TABLE_SIZE {
          AbsentEverywhere(ks, Home, id, i);
          return false, 0;
        }
        ProbedNext(ks, Home, id, i);
        i := Next(TABLE_SIZE, i);
        scanned := scanned + 1;
      }
      found := false;
    }

    /** A bumped generation makes every cache miss, so none can disagree with the table. */
    twostate lemma StaleCaches()
      requires old(Valid()) && caches == old(caches) && gen == old(gen) + 1
      ensures forall t :: Cache(t).gen < gen
    {
      forall t: Tid
        ensures Cache(t).gen < gen
      {
        assert old(Cache(t)) == Cache(t);
      }
    }

    /** install; ok is the source's assertion, which fails only when other ids fill the table. */
    method Install(id: Key, fn: Routine) returns (ok: bool)
      requires Valid() && id != 0
      modifies table, this`gen
      ensures Valid()
      ensures ok ==> View() == old(View()).(routes := old(Installed())[id := fn], gen := old(gen) + 1)
      ensures !ok ==> Installed() == old(Installed()) && gen == old(gen) && |old(Installed())| == TABLE_SIZE && id !in Installed()
    {
      hide Home, Routes, Reachable, Single;
      HomeFits(TABLE_SIZE);
      var found, i := Find(id);
      if !found {
        Routed(table[..], id);
        FullTable(table[..]);
        return false;
      }
      ghost var es := table[..];
      if es[i].id == 0 {
        Stored(Ids(es), Home, id, i);
      }
      assert Ids(es[i := Entry(fn, id)]) == Ids(es)[i := id];
      assert es[i].id == id ==> Ids(es)[i := id] == Ids(es);
      RouteStored(es, i, id, fn);
      table[i] := Entry(fn, id);
      assert table[..] == es[i := Entry(fn, id)];
      gen := gen + 1;
      ok := true;
      assert Sound(table[..]);
      StaleCaches();
    }

    /** revert. */
    method Revert(id: Key)
      requires Valid() && id != 0
      modifies table, this`gen
      ensures Valid()
      ensures View() == if id in old(Installed()) then old(View()).(routes := old(Installed())[id := 0], gen := old(gen) + 1)
                        else old(View())
    {
      hide Home, Routes, Reachable, Single;
      var found, i := Find(id);
      Routed(table[..], id);
      if found && table[i].id == id {
        ghost var es := table[..];
        assert Ids(es[i := Entry(0, id)]) == Ids(es);
        RouteStored(es, i, id, 0);
        table[i] := Entry(0, id);
        assert table[..] == es[i := Entry(0, id)];
        gen := gen + 1;
        assert Sound(table[..]);
        StaleCaches();
      } else if id in Ids(table[..]) {
        assert false;
      }
    }

    /** lookup. */
    method Lookup(id: Key) returns (fn: Routine)
      requires Valid() && id != 0
      ensures fn == Answer(id)
    {
      hide Home, Routes, Reachable, Single;
      var found, i := Find(id);
      Routed(table[..], id);
      if !found || table[i].id != id {
        return 0;
      }
      RouteAt(table[..], i);
      fn := table[i].fn;
    }

    /** malloc's routing: the inline cache when it is fresh, the table otherwise.  Either way the
        answer is the table's. */
    method Route(t: Tid, id: Key) returns (fn: Routine)
      requires Valid() && id != 0
      modifies this`caches
      ensures Valid() && fn == Answer(id)
      ensures View() == if id == old(Cache(t)).id && gen == old(Cache(t)).gen then old(View())
                        else old(View()).(caches := old(caches)[t := Cached(id, fn, gen)])
    {
      hide Home, Routes, Sound;
      assert Cache(t) == if t in caches then caches[t] else Cached(0, 0, 0);
      var cur, c := gen, if t in caches then caches[t] else Cached(0, 0, 0);
      if id == c.id && cur == c.gen {
        fn := c.fn;
        assert c == Cache(t);
      } else {
        fn := Lookup(id);
        caches := caches[t := Cached(id, fn, cur)];
        forall u: Tid
          ensures Cache(u).gen <= gen && (Cache(u).gen == gen ==> Cache(u).fn == Answer(Cache(u).id))
        {
          assert u != t ==> Cache(u) == old(Cache(u));
        }
      }
    }
  }

  lemma FullTable(es: seq<Entry>)
    requires Sound(es) && 0 !in Ids(es)
    ensures |Routes(es)| == TABLE_SIZE
  {
    hide Home, Reachable;
    var ks := Ids(es);
    assert forall i :: 0 <= i < |ks| ==> ks[i] in ks;
    DistinctCount(ks);
    assert Routes(es).Keys == Elements(ks);
  }
}
