/** Open addressing with linear probing, over any home function: a table is a sequence of keys, 0 for
    an empty slot, and a key may stand anywhere from its home up to the first empty slot. */
module Probing {

  type Key = nat

  /** The slot after i, cyclically. */
  function Next(n: nat, i: nat): (j: nat)
    requires i < n
    ensures j < n
  {
    if i + 1 == n then 0 else i + 1
  }

  /** How many slots after i slot j is, cyclically. */
  function Dist(n: nat, i: nat, j: nat): (d: nat)
    requires i < n && j < n
    ensures d < n && (d == 0 <==> i == j)
  {
    if i <= j then j - i else j + n - i
  }

  lemma DistNext(n: nat, i: nat, j: nat)
    requires i < n && j < n && Dist(n, i, j) + 1 < n
    ensures Dist(n, i, Next(n, j)) == Dist(n, i, j) + 1
  {
  }

  /** The probe path from h to p: the slots looked at before p. */
  predicate OnPath(n: nat, h: nat, p: nat, x: nat)
    requires h < n && p < n && x < n
  {
    Dist(n, h, x) < Dist(n, h, p)
  }

  /** home sends every key to a slot. */
  ghost predicate Homes(n: nat, home: Key -> nat) { forall k: Key :: home(k) < n }

  /** Every key's probe path is occupied up to the key, except that q may be empty. */
  ghost predicate ReachableBut(t: seq<Key>, home: Key -> nat, q: int)
    requires Homes(|t|, home)
  {
    forall p, x :: 0 <= p < |t| && 0 <= x < |t| && t[p] != 0 && x != q && OnPath(|t|, home(t[p]), p, x) ==> t[x] != 0
  }

  ghost predicate Reachable(t: seq<Key>, home: Key -> nat)
    requires Homes(|t|, home)
  {
    ReachableBut(t, home, -1)
  }

  /** No key twice. */
  ghost predicate Single(t: seq<Key>) {
    forall p, q :: 0 <= p < q < |t| && t[p] != 0 ==> t[p] != t[q]
  }

  /** The slots probed for key before k are all taken, by other keys. */
  ghost predicate Probed(t: seq<Key>, home: Key -> nat, key: Key, k: nat)
    requires Homes(|t|, home) && k < |t|
  {
    forall x :: 0 <= x < |t| && OnPath(|t|, home(key), k, x) ==> t[x] != 0 && t[x] != key
  }

  lemma ProbedStart(t: seq<Key>, home: Key -> nat, key: Key)
    requires Homes(|t|, home)
    ensures Probed(t, home, key, home(key))
  {
  }

  lemma ProbedNext(t: seq<Key>, home: Key -> nat, key: Key, k: nat)
    requires Homes(|t|, home) && k < |t| && Probed(t, home, key, k) && t[k] != 0 && t[k] != key
    requires Dist(|t|, home(key), k) + 1 < |t|
    ensures Dist(|t|, home(key), Next(|t|, k)) == Dist(|t|, home(key), k) + 1
    ensures Probed(t, home, key, Next(|t|, k))
  {
    forall x | 0 <= x < |t| && OnPath(|t|, home(key), Next(|t|, k), x)
      ensures t[x] != 0 && t[x] != key
    {
      if x != k {
        assert OnPath(|t|, home(key), k, x);
      }
    }
  }

  /** An empty slot on the probe path shows that the key is nowhere in the table. */
  lemma Absent(t: seq<Key>, home: Key -> nat, key: Key, k: nat)
    requires Homes(|t|, home) && Reachable(t, home) && k < |t| && Probed(t, home, key, k)
    requires key != 0 && t[k] == 0
    ensures key !in t
  {
    forall p | 0 <= p < |t|
      ensures t[p] != key
    {
      if !OnPath(|t|, home(key), k, p) && p != k {
        assert OnPath(|t|, home(key), p, k);
      }
    }
  }

  /** So does a full turn. */
  lemma AbsentEverywhere(t: seq<Key>, home: Key -> nat, key: Key, k: nat)
    requires Homes(|t|, home) && k < |t| && Probed(t, home, key, k) && t[k] != key && t[k] != 0
    requires Dist(|t|, home(key), k) == |t| - 1
    ensures key !in t && 0 !in t
  {
    forall x | 0 <= x < |t|
      ensures t[x] != key && t[x] != 0
    {
      if x != k {
        assert OnPath(|t|, home(key), k, x);
      }
    }
  }

  /** Storing a key in the first empty slot of its path keeps every key reachable. */
  lemma Stored(t: seq<Key>, home: Key -> nat, key: Key, k: nat)
    requires Homes(|t|, home) && Reachable(t, home) && Single(t)
    requires k < |t| && key != 0 && t[k] == 0 && Probed(t, home, key, k) && key !in t
    ensures Reachable(t[k := key], home) && Single(t[k := key])
  {
  }

  /** Clearing a slot leaves one hole in the paths. */
  lemma Cleared(t: seq<Key>, home: Key -> nat, i: nat)
    requires Homes(|t|, home) && Reachable(t, home) && Single(t) && i < |t|
    ensures ReachableBut(t[i := 0], home, i) && Single(t[i := 0])
  {
  }

  // ----- closing the hole -----

  /** The first d slots after the hole q do not need it. */
  ghost predicate Avoid(t: seq<Key>, home: Key -> nat, q: nat, d: nat)
    requires Homes(|t|, home) && q < |t|
  {
    forall p :: 0 <= p < |t| && t[p] != 0 && Dist(|t|, q, p) <= d ==> !OnPath(|t|, home(t[p]), p, q)
  }

  /** q is the hole, and the d slots after it are dealt with. */
  ghost predicate Hole(t: seq<Key>, home: Key -> nat, q: nat, d: nat) {
    Homes(|t|, home) && q < |t| && t[q] == 0 && d < |t| && ReachableBut(t, home, q) && Single(t) && Avoid(t, home, q, d)
  }

  lemma HoleStart(t: seq<Key>, home: Key -> nat, q: nat)
    requires Homes(|t|, home) && q < |t| && t[q] == 0 && ReachableBut(t, home, q) && Single(t)
    ensures Hole(t, home, q, 0)
  {
    assert forall p :: 0 <= p < |t| && Dist(|t|, q, p) <= 0 ==> p == q;
  }

  /** A path that passes q and goes on beyond j passes j. */
  lemma Between(n: nat, h: nat, q: nat, j: nat, p: nat)
    requires h < n && q < n && j < n && p < n && Dist(n, q, j) < Dist(n, q, p)
    ensures OnPath(n, h, p, q) ==> OnPath(n, h, p, j)
  {
  }

  /** At an empty slot j the hole is closed: whatever stood beyond j would need j too. */
  lemma Closed(t: seq<Key>, home: Key -> nat, q: nat, d: nat, j: nat)
    requires Hole(t, home, q, d) && j < |t| && t[j] == 0
    requires (j == q && d == |t| - 1) || Dist(|t|, q, j) == d + 1
    ensures Reachable(t, home)
  {
    forall p | 0 <= p < |t| && t[p] != 0
      ensures !OnPath(|t|, home(t[p]), p, q)
    {
      if Dist(|t|, q, p) > d {
        Between(|t|, home(t[p]), q, j, p);
      }
    }
  }

  /** The key in the next slot does not need the hole: it is put back where it was. */
  lemma Stays(t: seq<Key>, home: Key -> nat, q: nat, d: nat, j: nat)
    requires Hole(t, home, q, d) && j < |t| && t[j] != 0 && Dist(|t|, q, j) == d + 1
    requires !OnPath(|t|, home(t[j]), j, q)
    ensures Hole(t, home, q, d + 1)
  {
    forall p | 0 <= p < |t| && t[p] != 0 && Dist(|t|, q, p) <= d + 1
      ensures !OnPath(|t|, home(t[p]), p, q)
    {
      if Dist(|t|, q, p) == d + 1 {
        assert p == j;
      }
    }
  }

  /** The key in the next slot needs the hole: it is moved there, and its slot becomes the hole. */
  lemma MovesBack(t: seq<Key>, home: Key -> nat, q: nat, d: nat, j: nat)
    requires Hole(t, home, q, d) && j < |t| && t[j] != 0 && Dist(|t|, q, j) == d + 1
    requires OnPath(|t|, home(t[j]), j, q)
    ensures Hole(t[q := t[j]][j := 0], home, j, 0)
  {
    var n := t[q := t[j]][j := 0];
    assert q != j;
    forall p, x | 0 <= p < |n| && 0 <= x < |n| && n[p] != 0 && x != j && OnPath(|n|, home(n[p]), p, x)
      ensures n[x] != 0
    {
      if p == q {
        assert OnPath(|t|, home(t[j]), j, x);
      }
    }
    HoleStart(n, home, j);
  }

  // ----- total displacement -----

  function Off(t: seq<Key>, home: Key -> nat, p: nat): nat
    requires p < |t| && home(t[p]) < |t|
  {
    if t[p] == 0 then 0 else Dist(|t|, home(t[p]), p)
  }

  /** The displacement of the first m slots' keys from their homes. */
  ghost function Displacement(t: seq<Key>, home: Key -> nat, m: nat): nat
    requires Homes(|t|, home) && m <= |t|
  {
    if m == 0 then 0 else Displacement(t, home, m - 1) + Off(t, home, m - 1)
  }

  lemma {:induction false} DisplacementUpdate(t: seq<Key>, home: Key -> nat, m: nat, p: nat, key: Key)
    requires Homes(|t|, home) && m <= |t| && p < |t|
    ensures var n := t[p := key];
            Displacement(n, home, m) ==
            Displacement(t, home, m) + (if p < m then Off(n, home, p) - Off(t, home, p) else 0)
  {
    if m > 0 {
      DisplacementUpdate(t, home, m - 1, p, key);
    }
  }

  /** Moving a key back to the hole lowers the total displacement: the closing loop terminates even
      when the table was completely full. */
  lemma MovesNearer(t: seq<Key>, home: Key -> nat, q: nat, j: nat)
    requires Homes(|t|, home) && q < |t| && j < |t| && t[q] == 0 && t[j] != 0
    requires OnPath(|t|, home(t[j]), j, q)
    ensures Displacement(t[q := t[j]][j := 0], home, |t|) < Displacement(t, home, |t|)
  {
    DisplacementUpdate(t, home, |t|, q, t[j]);
    DisplacementUpdate(t[q := t[j]], home, |t|, j, 0);
  }
}
