/** Null-terminated lists linked through memory, and sequences without repetition. */
module Lists {

  /** Addresses; 0 is the null pointer. */
  type Addr = nat

  function Tail<T>(q: seq<T>): seq<T> { if q == [] then [] else q[1..] }

  function Nth(q: seq<Addr>, i: nat): Addr { if i < |q| then q[i] else 0 }

  /** head starts a null-terminated list through link whose nodes are exactly q, in order. */
  ghost predicate Chain(link: map<Addr, Addr>, head: Addr, q: seq<Addr>) {
    head == Nth(q, 0) &&
    forall i :: 0 <= i < |q| ==> q[i] != 0 && q[i] in link && link[q[i]] == Nth(q, i + 1)
  }

  predicate Distinct<T(==)>(q: seq<T>) {
    forall i, j :: 0 <= i < j < |q| ==> q[i] != q[j]
  }

  function Elements<T>(q: seq<T>): set<T> { set x | x in q }

  lemma ElementsMore<T>(q: seq<T>, x: T)
    ensures Elements(q + [x]) == Elements(q) + {x}
  {
  }

  lemma {:induction false} DistinctCount<T>(q: seq<T>)
    requires Distinct(q)
    ensures |Elements(q)| == |q|
  {
    hide Elements;
    if q == [] {
      assert Elements(q) == {} by { NoElements<T>(); }
    } else {
      var r, x := q[..|q| - 1], q[|q| - 1];
      DistinctCount(r);
      assert q == r + [x];
      ElementsMore(r, x);
      NotAmong(r, x);
    }
  }

  lemma NoElements<T>()
    ensures Elements<T>([]) == {}
  {
  }

  lemma NotAmong<T>(q: seq<T>, x: T)
    requires forall i :: 0 <= i < |q| ==> q[i] != x
    ensures x !in Elements(q)
  {
  }

  lemma ChainFrame(m: map<Addr, Addr>, n: map<Addr, Addr>, head: Addr, q: seq<Addr>)
    requires Chain(m, head, q)
    requires forall c :: c in q && c in m ==> c in n && n[c] == m[c]
    ensures Chain(n, head, q)
  {
  }

  lemma ChainPush(m: map<Addr, Addr>, head: Addr, q: seq<Addr>, c: Addr)
    requires Chain(m, head, q) && Distinct(q) && c != 0 && c !in q && c in m && m[c] == head
    ensures Chain(m, c, [c] + q) && Distinct([c] + q)
  {
  }

  lemma ChainPop(m: map<Addr, Addr>, head: Addr, q: seq<Addr>)
    requires Chain(m, head, q) && Distinct(q) && q != []
    ensures head == q[0] && head != 0 && head in m && Chain(m, m[head], q[1..]) && Distinct(q[1..]) && head !in q[1..]
  {
  }

  lemma EmptyChain(m: map<Addr, Addr>)
    ensures Chain(m, 0, []) && Distinct<Addr>([])
  {
  }

  lemma ChainEnds(m: map<Addr, Addr>, head: Addr, q: seq<Addr>)
    requires Chain(m, head, q)
    ensures head == 0 <==> q == []
  {
  }

  lemma SubsetSize<T>(a: set<T>, b: set<T>)
    ensures a <= b ==> |a| <= |b| && (|a| == |b| ==> a == b)
  {
    if a <= b {
      assert |b - a| == |b| - |a|;
    }
  }

  /** No multiple of n lies strictly between 0 and n. */
  lemma NoTurn(n: nat, k: int)
    ensures n * k <= 0 || n * k >= n
  {
    if k >= 1 {
      assert n * k == n + n * (k - 1);
      assert n * (k - 1) >= 0;
    } else {
      assert n * -k >= 0;
      assert n * k == -(n * -k);
    }
  }

  /** Ring positions less than a full turn apart use different slots. */
  lemma SlotsApart(n: nat, i: nat, j: nat)
    requires i < j < i + n
    ensures i % n != j % n
  {
    var q, r := i / n, j / n;
    assert i == n * q + i % n && j == n * r + j % n;
    NoTurn(n, r - q);
    assert n * (r - q) == n * r - n * q;
  }
}
