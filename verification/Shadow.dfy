/** The shadow validator: an open-addressing table of live chunks, with linear-probing deletion by
    reinserting the rest of the cluster.  Entries are changed in place. */
module Shadow {
  import opened Probing

  const TABLE_SIZE: nat := 0x2_0000
  const ALIGNMENT: nat := 16

  /** ptr 0 marks an empty slot. */
  datatype Entry = Entry(ptr: Key, size: nat, id: nat, tid: nat)

  /** hash_ptr, on 64-bit words. */
  function Home(p: Key): (h: nat)
    ensures h < TABLE_SIZE
  {
    var v := (p % 0x1_0000_0000_0000_0000) as bv64;
    var a := v ^ (v >> 21);
    var b := a * 0xbf58_476d_1ce4_e5b9;
    (b ^ (b >> 27)) as nat % TABLE_SIZE
  }

  function Keys(es: seq<Entry>): (ks: seq<Key>)
    ensures |ks| == |es| && forall i :: 0 <= i < |es| ==> ks[i] == es[i].ptr
  {
    seq(|es|, i requires 0 <= i < |es| => es[i].ptr)
  }

  /** The live chunks on record. */
  function Tracked(es: seq<Entry>): set<Entry> { set e | e in es && e.ptr != 0 }

  ghost predicate Sound(es: seq<Entry>) {
    |es| == TABLE_SIZE && Reachable(Keys(es), Home) && Single(Keys(es))
  }

  datatype Verdict = Ignored | NullReturn | Misaligned | Duplicate(existing: Entry) | Full | Recorded

  lemma KeysUpdate(es: seq<Entry>, k: nat, e: Entry)
    requires k < |es|
    ensures Keys(es[k := e]) == Keys(es)[k := e.ptr]
  {
  }

  lemma HomeFits(n: nat)
    requires n == TABLE_SIZE
    ensures Homes(n, Home)
  {
    hide Home;
    forall k: Key
      ensures Home(k) < n
    {
      assert Home(k) < TABLE_SIZE;
    }
  }

  /** Overwriting an empty slot adds the entry; clearing one removes its entry and no other. */
  lemma TrackedStore(es: seq<Entry>, k: nat, e: Entry)
    requires k < |es| && es[k].ptr == 0 && e.ptr != 0
    ensures Tracked(es[k := e]) == Tracked(es) + {e}
  {
    var n := es[k := e];
    forall x | x in Tracked(es)
      ensures x in n
    {
      var i :| 0 <= i < |es| && es[i] == x;
      assert n[i] == x;
    }
    assert n[k] == e;
  }

  lemma TrackedClear(es: seq<Entry>, k: nat)
    requires k < |es| && es[k].ptr != 0 && Single(Keys(es))
    ensures Tracked(es[k := es[k].(ptr := 0)]) == Tracked(es) - {es[k]}
    ensures forall e :: e in Tracked(es) && e.ptr == es[k].ptr ==> e == es[k]
  {
    var n := es[k := es[k].(ptr := 0)];
    forall x | x in Tracked(es) && x != es[k]
      ensures x in n
    {
      var i :| 0 <= i < |es| && es[i] == x;
      assert n[i] == x;
    }
    forall x | x in Tracked(es) && x.ptr == es[k].ptr
      ensures x == es[k]
    {
      var i :| 0 <= i < |es| && es[i] == x;
      assert Keys(es)[i] == Keys(es)[k];
    }
    forall x | x in Tracked(n)
      ensures x != es[k] && x in es
    {
      var i :| 0 <= i < |n| && n[i] == x;
      assert i != k && n[i] == es[i];
      assert Keys(es)[i] != Keys(es)[k];
    }
  }

  class Table {
    const slots: array<Entry>

    ghost predicate Valid()
      reads this, slots
    {
      Sound(slots[..])
    }

    constructor ()
      ensures Valid() && fresh(slots) && Tracked(slots[..]) == {}
    {
      hide Home;
      slots := new Entry[TABLE_SIZE](_ => Entry(0, 0, 0, 0));
      new;
      HomeFits(TABLE_SIZE);
    }

    /** validate_alloc, once the pointer is known to be non-null, managed and aligned. */
    method Record(e: Entry) returns (v: Verdict)
      requires Valid() && e.ptr != 0
      modifies slots
      ensures Valid()
      ensures v.Duplicate? ==> v.existing in Tracked(old(slots[..])) && v.existing.ptr == e.ptr
      ensures v.Full? ==> (forall x :: x in Tracked(old(slots[..])) ==> x.ptr != e.ptr) && 0 !in Keys(old(slots[..]))
      ensures v.Duplicate? || v.Full? || v.Recorded?
      ensures v.Recorded? ==> (forall x :: x in Tracked(old(slots[..])) ==> x.ptr != e.ptr) &&
                              Tracked(slots[..]) == Tracked(old(slots[..])) + {e}
      ensures !v.Recorded? ==> slots[..] == old(slots[..])
    {
      hide Home;
      HomeFits(TABLE_SIZE);
      ghost var ks := Keys(slots[..]);
      var i: nat, scanned: nat := Home(e.ptr), 0;
      ProbedStart(ks, Home, e.ptr);
      while slots[i].ptr != 0
        invariant i < TABLE_SIZE && scanned < TABLE_SIZE && Dist(TABLE_SIZE, Home(e.ptr), i) == scanned
        invariant slots[..] == old(slots[..]) && Probed(ks, Home, e.ptr, i)
        decreases TABLE_SIZE - scanned
      {
        assert ks[i] == slots[i].ptr;
        if slots[i].ptr == e.ptr {
          return Duplicate(slots[i]);
        }
        if scanned + 1 >= TABLE_SIZE {
          AbsentEverywhere(ks, Home, e.ptr, i);
          Untracked(slots[..], e.ptr);
          return Full;
        }
        ProbedNext(ks, Home, e.ptr, i);
        i := Next(TABLE_SIZE, i);
        scanned := scanned + 1;
      }
      Absent(ks, Home, e.ptr, i);
      Untracked(slots[..], e.ptr);
      Stored(ks, Home, e.ptr, i);
      KeysUpdate(slots[..], i, e);
      TrackedStore(slots[..], i, e);
      slots[i] := e;
      assert slots[..] == old(slots[..])[i := e];
      v := Recorded;
    }

    /** validate_alloc; managed is the pagemap's answer for the pointer's segment. */
    method ValidateAlloc(e: Entry, managed: bool) returns (v: Verdict)
      requires Valid()
      modifies slots
      ensures Valid()
      ensures v.NullReturn? <==> e.ptr == 0
      ensures v.Ignored? <==> e.ptr != 0 && !managed
      ensures v.Misaligned? <==> e.ptr != 0 && managed && e.ptr % ALIGNMENT != 0
      ensures v.Recorded? || v.Full? ==> forall x :: x in Tracked(old(slots[..])) ==> x.ptr != e.ptr
      ensures v.Duplicate? ==> v.existing in Tracked(old(slots[..])) && v.existing.ptr == e.ptr
      ensures v.Full? ==> 0 !in Keys(old(slots[..]))
      ensures Tracked(slots[..]) == Tracked(old(slots[..])) + if v.Recorded? then {e} else {}
    {
      hide Home;
      if e.ptr == 0 {
        return NullReturn;
      }
      if !managed {
        return Ignored;
      }
      if e.ptr % ALIGNMENT != 0 {
        return Misaligned;
      }
      v := Record(e);
    }

    /** The search of validate_free. */
    method Locate(p: Key) returns (found: bool, i: nat)
      requires Valid() && p != 0
      ensures i < TABLE_SIZE && (found ==> slots[i].ptr == p)
      ensures !found ==> p !in Keys(slots[..])
    {
      hide Home;
      HomeFits(TABLE_SIZE);
      ghost var ks := Keys(slots[..]);
      i := Home(p);
      var scanned: nat := 0;
      ProbedStart(ks, Home, p);
      while slots[i].ptr != p
        invariant i < TABLE_SIZE && scanned < TABLE_SIZE && Dist(TABLE_SIZE, Home(p), i) == scanned
        invariant Probed(ks, Home, p, i)
        decreases TABLE_SIZE - scanned
      {
        assert ks[i] == slots[i].ptr;
        if slots[i].ptr == 0 {
          Absent(ks, Home, p, i);
          return false, i;
        }
        if scanned + 1 >= TABLE_SIZE {
          AbsentEverywhere(ks, Home, p, i);
          return false, i;
        }
        ProbedNext(ks, Home, p, i);
        i := Next(TABLE_SIZE, i);
        scanned := scanned + 1;
      }
      found := true;
    }

    /** Reinserts e, just lifted from slot j: it lands in the hole q if its path passes the hole, and
        back in j if not. */
    method Reinsert(e: Entry, ghost q: nat, ghost d: nat, j: nat)
      requires slots.Length == TABLE_SIZE && j < TABLE_SIZE && q < TABLE_SIZE && e.ptr != 0 && slots[j].ptr == 0 && q != j
      requires Hole(Keys(slots[..])[j := e.ptr], Home, q, d)
      modifies slots
      ensures var k := if OnPath(TABLE_SIZE, Home(e.ptr), j, q) then q else j;
              slots[..] == old(slots[..])[k := e]
    {
      hide Home;
      ghost var ks := Keys(slots[..]);
      var k: nat := Home(e.ptr);
      ghost var goal := if OnPath(TABLE_SIZE, Home(e.ptr), j, q) then q else j;
      assert forall x :: 0 <= x < TABLE_SIZE && OnPath(TABLE_SIZE, Home(e.ptr), goal, x) ==> ks[x] != 0 by {
        Taken(ks, q, d, j, e.ptr);
      }
      while slots[k].ptr != 0
        invariant k < TABLE_SIZE && slots[..] == old(slots[..])
        invariant Dist(TABLE_SIZE, Home(e.ptr), k) <= Dist(TABLE_SIZE, Home(e.ptr), goal)
        decreases Dist(TABLE_SIZE, Home(e.ptr), goal) - Dist(TABLE_SIZE, Home(e.ptr), k)
      {
        assert ks[goal] == slots[goal].ptr == 0;
        DistNext(TABLE_SIZE, Home(e.ptr), k);
        k := Next(TABLE_SIZE, k);
      }
      assert ks[k] == slots[k].ptr;
      slots[k] := e;
    }

    /** validate_free: clears the pointer's slot, then lifts and reinserts the rest of the cluster. */
    method Erase(p: Key)
      requires Valid()
      modifies slots
      ensures Valid()
      ensures Tracked(slots[..]) == set e | e in Tracked(old(slots[..])) && e.ptr != p
    {
      hide Home;
      HomeFits(TABLE_SIZE);
      if p == 0 {
        return;
      }
      var found, i := Locate(p);
      if !found {
        Untracked(slots[..], p);
        return;
      }
      ghost var es := slots[..];
      TrackedClear(es, i);
      KeysUpdate(es, i, es[i].(ptr := 0));
      Cleared(Keys(es), Home, i);
      slots[i] := slots[i].(ptr := 0);
      assert slots[..] == es[i := es[i].(ptr := 0)];
      CloseHole(i);
    }

    method CloseHole(i: nat)
      requires slots.Length == TABLE_SIZE && i < TABLE_SIZE && slots[i].ptr == 0
      requires Homes(TABLE_SIZE, Home) && ReachableBut(Keys(slots[..]), Home, i) && Single(Keys(slots[..]))
      modifies slots
      ensures Valid() && Tracked(slots[..]) == Tracked(old(slots[..]))
    {
      hide Home, ReachableBut, Single, Avoid;
      ghost var q, d: nat := i, 0;
      HoleStart(Keys(slots[..]), Home, i);
      var j: nat := Next(TABLE_SIZE, i);
      while slots[j].ptr != 0
        invariant j < TABLE_SIZE && Hole(Keys(slots[..]), Home, q, d)
        invariant Tracked(slots[..]) == Tracked(old(slots[..]))
        invariant (j == q && d == TABLE_SIZE - 1) || Dist(TABLE_SIZE, q, j) == d + 1
        decreases Displacement(Keys(slots[..]), Home, TABLE_SIZE), TABLE_SIZE - d
      {
        ghost var es := slots[..];
        ghost var ks := Keys(es);
        var e := slots[j];
        slots[j] := slots[j].(ptr := 0);
        assert slots[..] == es[j := es[j].(ptr := 0)];
        KeysUpdate(es, j, es[j].(ptr := 0));
        ghost var lifted: seq<Key> := ks[j := 0];
        assert lifted[j := e.ptr] == ks;
        Reinsert(e, q, d, j);
        Relocated(es, q, j);
        if OnPath(TABLE_SIZE, Home(e.ptr), j, q) {
          MovesBack(ks, Home, q, d, j);
          MovesNearer(ks, Home, q, j);
          q, d := j, 0;
        } else {
          Stays(ks, Home, q, d, j);
          d := d + 1;
        }
        j := Next(TABLE_SIZE, j);
      }
      Closed(Keys(slots[..]), Home, q, d, j);
    }
  }

  /** Moving an entry to the hole, or putting it back, tracks the same entries. */
  lemma Relocated(es: seq<Entry>, q: nat, j: nat)
    requires q < |es| && j < |es| && es[j].ptr != 0 && es[q].ptr == 0 && Single(Keys(es))
    ensures var n := es[j := es[j].(ptr := 0)];
            n[j := es[j]] == es && Tracked(n[q := es[j]]) == Tracked(es) &&
            Keys(n[q := es[j]]) == Keys(es)[q := es[j].ptr][j := 0]
  {
    var n := es[j := es[j].(ptr := 0)];
    TrackedClear(es, j);
    TrackedStore(n, q, es[j]);
  }

  lemma Taken(ks: seq<Key>, q: nat, d: nat, j: nat, key: Key)
    requires |ks| == TABLE_SIZE && q < TABLE_SIZE && j < TABLE_SIZE && q != j && key != 0
    requires Hole(ks[j := key], Home, q, d)
    ensures var goal := if OnPath(TABLE_SIZE, Home(key), j, q) then q else j;
            forall x :: 0 <= x < TABLE_SIZE && OnPath(TABLE_SIZE, Home(key), goal, x) ==> ks[x] != 0
  {
    hide Home;
    var t: seq<Key> := ks[j := key];
    var goal := if OnPath(TABLE_SIZE, Home(key), j, q) then q else j;
    forall x | 0 <= x < TABLE_SIZE && OnPath(TABLE_SIZE, Home(key), goal, x)
      ensures ks[x] != 0
    {
      assert t[j] == key && OnPath(TABLE_SIZE, Home(t[j]), j, x);
      assert x != q && x != j;
      assert t[x] == ks[x];
    }
  }

  lemma Untracked(es: seq<Entry>, p: Key)
    requires p !in Keys(es)
    ensures forall x :: x in Tracked(es) ==> x.ptr != p
  {
    forall x | x in Tracked(es)
      ensures x.ptr != p
    {
      var i :| 0 <= i < |es| && es[i] == x;
      assert Keys(es)[i] == x.ptr;
    }
  }
}
