/** Retiring compiled code pages: the dispatch table, the generation-stamped inline caches and the
    epoch scheme that decides when a reverted page can be unmapped, as a step system.

    Any number of threads call the allocator, run compiled pages and fail their guards, while one
    background thread installs pages and drains the deopt queue.  Every access to a word that
    another thread may change is a step of its own (sequential consistency). */
module Epoch {
  import opened Lists

  /** A thread is named by the address of its epoch node. */
  type Tid = Addr
  /** A code page, never reused as a name; 0 is the null routine. */
  type Page = nat
  type Id = nat

  datatype Cached = Cached(id: Id, fn: Page, gen: nat)
  datatype Pending = Pending(page: Page, epoch: nat)

  datatype Pc =
    | Outside
    | RegLoad(id: Id)                  // about to load the head of the thread list
    | RegLink(id: Id, head: Tid)       // about to write its own next
    | RegSwap(id: Id, head: Tid)       // about to compare-and-swap the head
    | EpochLoad(id: Id)
    | EpochStore(id: Id, v: nat)
    | GenLoad(id: Id)
    | Looking(id: Id, gen: nat)        // about to read the table
    | In(page: Page)                   // holds page: calls it, runs it
    | Reverting(page: Page)            // guard failed: about to clear the table entry
    | Bumping(page: Page)              // about to bump the generation
    | Queueing(page: Page)             // about to enqueue page, under the lock
    | Leaving(page: Page)              // back in page's epilogue

  /** rest is history: the nodes from at to the end of the list. */
  datatype Background =
    | Resting
    | Claiming(id: Id, page: Page)     // about to write the entry's id
    | Installing(id: Id, page: Page)   // about to store the routine
    | Announcing                       // about to bump the generation
    | Draining                         // about to take from the queue, under the lock
    | Retiring(page: Page)             // about to bump the epoch
    | MinLoad                          // about to load the epoch
    | HeadLoad(min: nat)
    | Reading(min: nat, at: Tid, rest: seq<Tid>)    // about to load at's epoch
    | Stepping(min: nat, at: Tid, rest: seq<Tid>)   // about to load at's next
    | Sweeping(min: nat, i: nat, out: nat)          // compaction loop over pending

  /** nodes and gone are history: the nodes on the thread list, first out first, and the pages any
      thread has handed to the queue.  site is the site a page was compiled for. */
  datatype State = State(
    enabled: bool, table: map<Id, Page>, gen: nat, epoch: nat, queue: seq<Page>, pending: seq<Pending>,
    pcs: map<Tid, Pc>, caches: map<Tid, Cached>, calls: map<Tid, nat>, registered: set<Tid>,
    epochs: map<Tid, nat>, next: map<Tid, Tid>, head: Tid, nodes: seq<Tid>, bg: Background,
    site: map<Page, Id>, mapped: set<Page>, gone: set<Page>)
  {
    function Pc(t: Tid): Pc { if t in pcs then pcs[t] else Outside }
    function Cache(t: Tid): Cached { if t in caches then caches[t] else Cached(0, 0, 0) }
    function Calls(t: Tid): nat { if t in calls then calls[t] else 0 }
    function Epoch(t: Tid): nat { if t in epochs then epochs[t] else 0 }
    function Next(t: Tid): Tid { if t in next then next[t] else 0 }
    function Entry(id: Id): Page { if id in table then table[id] else 0 }
    function Goto(t: Tid, pc: Pc): State { this.(pcs := pcs[t := pc]) }
  }

  const QUEUE_CAP: nat := 256
  const MAX_PENDING: nat := 256

  datatype Step =
    | Call(t: Tid, id: Id)
    | LoadHead(t: Tid)
    | WriteNext(t: Tid)
    | SwapHead(t: Tid, spurious: bool)
    | LoadEpoch(t: Tid)
    | StoreEpoch(t: Tid)
    | LoadGen(t: Tid)
    | Lookup(t: Tid)
    | Return(t: Tid)
    | Fail(t: Tid)
    | Clear(t: Tid)
    | BumpGen(t: Tid)
    | Enqueue(t: Tid)
    | Leave(t: Tid)
    | Emit(id: Id, page: Page)
    | Claim
    | Install
    | Announce
    | DrainStart
    | Dequeue
    | Retire
    | LoadMin
    | LoadFirst
    | ReadEpoch
    | Follow
    | Sweep

  predicate Enabled(s: State, step: Step) {
    match step
    case Call(t, id) => s.Pc(t).Outside? && t != 0 && id != 0
    case LoadHead(t) => s.Pc(t).RegLoad?
    case WriteNext(t) => s.Pc(t).RegLink?
    case SwapHead(t, _) => s.Pc(t).RegSwap?
    case LoadEpoch(t) => s.Pc(t).EpochLoad?
    case StoreEpoch(t) => s.Pc(t).EpochStore?
    case LoadGen(t) => s.Pc(t).GenLoad?
    case Lookup(t) => s.Pc(t).Looking?
    case Return(t) => s.Pc(t).In?
    case Fail(t) => s.Pc(t).In?
    case Clear(t) => s.Pc(t).Reverting? && s.Pc(t).page in s.site
    case BumpGen(t) => s.Pc(t).Bumping?
    case Enqueue(t) => s.Pc(t).Queueing?
    case Leave(t) => s.Pc(t).Leaving?
    case Emit(id, page) => s.bg.Resting? && id != 0 && page != 0 && page !in s.site
    case Claim => s.bg.Claiming?
    case Install => s.bg.Installing?
    case Announce => s.bg.Announcing?
    case DrainStart => s.bg.Resting?
    case Dequeue => s.bg.Draining?
    case Retire => s.bg.Retiring?
    case LoadMin => s.bg.MinLoad?
    case LoadFirst => s.bg.HeadLoad?
    case ReadEpoch => s.bg.Reading?
    case Follow => s.bg.Stepping?
    case Sweep => s.bg.Sweeping? && s.bg.out <= s.bg.i
  }

  function ScanFrom(min: nat, at: Tid, rest: seq<Tid>): Background {
    if at == 0 then Sweeping(min, 0, 0) else Reading(min, at, rest)
  }

  /** Where a thread goes with the routine it found: into the page, or to the generic path. */
  function Dispatch(fn: Page): Pc { if fn != 0 then In(fn) else Outside }

  /** Entering the allocator: every 32nd call of a thread is a safe point. */
  function DoCall(s: State, t: Tid, id: Id): (n: State)
    ensures n.pcs == s.pcs[t := n.Pc(t)] && Holds(n.Pc(t)) == 0
  {
    s.(calls := s.calls[t := s.Calls(t) + 1])
     .Goto(t, if (s.Calls(t) + 1) % 32 != 0 then GenLoad(id)
              else if t in s.registered then EpochLoad(id) else RegLoad(id))
  }

  function DoSwapHead(s: State, t: Tid, id: Id, head: Tid, spurious: bool): (n: State)
    ensures n.pcs == s.pcs[t := n.Pc(t)] && Holds(n.Pc(t)) == 0
  {
    if s.head == head && !spurious then
      s.(head := t, nodes := [t] + s.nodes, registered := s.registered + {t}).Goto(t, EpochLoad(id))
    else s.Goto(t, RegLink(id, s.head))
  }

  function DoLoadGen(s: State, t: Tid, id: Id): State {
    var c := s.Cache(t);
    s.Goto(t, if id == c.id && s.gen == c.gen then Dispatch(c.fn) else Looking(id, s.gen))
  }

  function DoLookup(s: State, t: Tid, id: Id, gen: nat): State {
    var fn := s.Entry(id);
    s.(caches := s.caches[t := Cached(id, fn, gen)]).Goto(t, Dispatch(fn))
  }

  function DoClear(s: State, t: Tid, page: Page): State
    requires page in s.site
  {
    if s.site[page] in s.table then s.(table := s.table[s.site[page] := 0]).Goto(t, Bumping(page))
    else s.Goto(t, Queueing(page))
  }

  /** A full queue drops the page: it is then never unmapped. */
  function DoEnqueue(s: State, t: Tid, page: Page): State {
    s.(queue := if |s.queue| < QUEUE_CAP then s.queue + [page] else s.queue, gone := s.gone + {page})
     .Goto(t, Leaving(page))
  }

  function DoDequeue(s: State): State {
    if s.queue != [] then s.(queue := s.queue[1..], bg := Retiring(s.queue[0]))
    else s.(bg := if s.pending == [] then Resting else MinLoad)
  }

  function DoRetire(s: State, page: Page): State {
    s.(epoch := s.epoch + 1, bg := Draining,
       pending := if |s.pending| < MAX_PENDING then s.pending + [Pending(page, s.epoch)] else s.pending)
  }

  function DoSweep(s: State, min: nat, i: nat, out: nat): (n: State)
    requires out <= i
    ensures n.pcs == s.pcs
  {
    if i >= |s.pending| then s.(pending := if out <= |s.pending| then s.pending[..out] else [], bg := Resting)
    else if s.pending[i].epoch < min then
      s.(mapped := s.mapped - {s.pending[i].page}, bg := Sweeping(min, i + 1, out))
    else s.(pending := s.pending[out := s.pending[i]], bg := Sweeping(min, i + 1, out + 1))
  }

  function Least(a: nat, b: nat): nat { if a < b then a else b }

  // The kinds of step: entering the allocator up to the safe point, finding and running a
  // routine, the deopt path; and, for the background thread, installing, taking pages off the
  // queue, and scanning epochs; Sweep, the compaction loop's step, is left.

  predicate Enters(step: Step) {
    step.Call? || step.LoadHead? || step.WriteNext? || step.SwapHead? || step.LoadEpoch? || step.StoreEpoch?
  }

  predicate Runs(step: Step) { step.LoadGen? || step.Lookup? || step.Return? || step.Leave? }

  predicate Deopts(step: Step) { step.Fail? || step.Clear? || step.BumpGen? || step.Enqueue? }

  predicate Installs(step: Step) { step.Emit? || step.Claim? || step.Install? || step.Announce? }

  predicate Takes(step: Step) { step.DrainStart? || step.Dequeue? || step.Retire? }

  predicate Scans(step: Step) {
    step.LoadMin? || step.LoadFirst? || step.ReadEpoch? || step.Follow?
  }

  /** The page a thread is in, or holds as a pointer it is about to call; 0 if none. */
  function Holds(pc: Pc): Page {
    if pc.In? || pc.Reverting? || pc.Bumping? || pc.Queueing? || pc.Leaving? then pc.page else 0
  }

  function DoEnter(s: State, step: Step): (n: State)
    requires Enabled(s, step) && Enters(step)
    ensures n.pcs == s.pcs[step.t := n.Pc(step.t)]
    ensures Holds(n.Pc(step.t)) == 0
  {
    match step
    case Call(t, id) => DoCall(s, t, id)
    case LoadHead(t) => s.Goto(t, RegLink(s.Pc(t).id, s.head))
    case WriteNext(t) =>
      s.(next := s.next[t := s.Pc(t).head]).Goto(t, RegSwap(s.Pc(t).id, s.Pc(t).head))
    case SwapHead(t, spurious) => DoSwapHead(s, t, s.Pc(t).id, s.Pc(t).head, spurious)
    case LoadEpoch(t) => s.Goto(t, EpochStore(s.Pc(t).id, s.epoch))
    case StoreEpoch(t) => s.(epochs := s.epochs[t := s.Pc(t).v]).Goto(t, GenLoad(s.Pc(t).id))
  }

  function DoRun(s: State, step: Step): (n: State)
    requires Enabled(s, step) && Runs(step)
    ensures n.pcs == s.pcs[step.t := n.Pc(step.t)]
    ensures step.Return? || step.Leave? ==> Holds(n.Pc(step.t)) == 0
    ensures step.LoadGen? && n.Pc(step.t).In? ==>
            n.Pc(step.t).page == s.Cache(step.t).fn && s.Cache(step.t).gen == s.gen
    ensures step.Lookup? && n.Pc(step.t).In? ==> n.Pc(step.t).page == s.Entry(s.Pc(step.t).id)
    ensures !n.Pc(step.t).In? ==> Holds(n.Pc(step.t)) == 0
  {
    match step
    case LoadGen(t) => DoLoadGen(s, t, s.Pc(t).id)
    case Lookup(t) => DoLookup(s, t, s.Pc(t).id, s.Pc(t).gen)
    case Return(t) => s.Goto(t, Outside)
    case Leave(t) => s.Goto(t, Outside)
  }

  function DoDeopt(s: State, step: Step): (n: State)
    requires Enabled(s, step) && Deopts(step)
    ensures n.pcs == s.pcs[step.t := n.Pc(step.t)]
    ensures Holds(n.Pc(step.t)) == Holds(s.Pc(step.t))
  {
    match step
    case Fail(t) => s.Goto(t, if s.enabled then Reverting(s.Pc(t).page) else Leaving(s.Pc(t).page))
    case Clear(t) => DoClear(s, t, s.Pc(t).page)
    case BumpGen(t) => s.(gen := s.gen + 1).Goto(t, Queueing(s.Pc(t).page))
    case Enqueue(t) => DoEnqueue(s, t, s.Pc(t).page)
  }

  function DoInstall(s: State, step: Step): (n: State)
    requires Enabled(s, step) && Installs(step)
    ensures n.pcs == s.pcs
  {
    match step
    case Emit(id, page) =>
      s.(site := s.site[page := id], mapped := s.mapped + {page}, bg := Claiming(id, page))
    case Claim => s.(table := s.table[s.bg.id := s.Entry(s.bg.id)], bg := Installing(s.bg.id, s.bg.page))
    case Install => s.(table := s.table[s.bg.id := s.bg.page], bg := Announcing)
    case Announce => s.(gen := s.gen + 1, bg := Resting)
  }

  function DoTake(s: State, step: Step): (n: State)
    requires Enabled(s, step) && Takes(step)
    ensures n.pcs == s.pcs
  {
    match step
    case DrainStart => s.(bg := Draining)
    case Dequeue => DoDequeue(s)
    case Retire => DoRetire(s, s.bg.page)
  }

  function DoScan(s: State, step: Step): (n: State)
    requires Enabled(s, step) && Scans(step)
    ensures n.pcs == s.pcs
  {
    match step
    case LoadMin => s.(bg := HeadLoad(s.epoch))
    case LoadFirst => s.(bg := ScanFrom(s.bg.min, s.head, s.nodes))
    case ReadEpoch => s.(bg := Stepping(Least(s.bg.min, s.Epoch(s.bg.at)), s.bg.at, s.bg.rest))
    case Follow => s.(bg := ScanFrom(s.bg.min, s.Next(s.bg.at), Tail(s.bg.rest)))
  }

  function Do(s: State, step: Step): State
    requires Enabled(s, step)
  {
    if Enters(step) then DoEnter(s, step)
    else if Runs(step) then DoRun(s, step)
    else if Deopts(step) then DoDeopt(s, step)
    else if Installs(step) then DoInstall(s, step)
    else if Takes(step) then DoTake(s, step)
    else if Scans(step) then DoScan(s, step)
    else DoSweep(s, s.bg.min, s.bg.i, s.bg.out)
  }

  function Init(enabled: bool): State {
    State(enabled, map[], 1, 0, [], [], map[], map[], map[], {}, map[], map[], 0, [], Resting, map[], {}, {})
  }

  /** Runs a schedule; steps that are not enabled are skipped. */
  function Exec(s: State, steps: seq<Step>): State
    decreases |steps|
  {
    if steps == [] then s else Exec(if Enabled(s, steps[0]) then Do(s, steps[0]) else s, steps[1..])
  }

  // ----- the invariant -----

  /** The page the background thread has emitted but not yet put in the table; 0 if none. */
  function Upcoming(bg: Background): Page { if bg.Claiming? || bg.Installing? then bg.page else 0 }

  /** Nobody can come to hold p again: the table does not name it and no cache that does can hit. */
  ghost predicate Cut(s: State, p: Page) {
    p in s.site && s.site[p] in s.table && s.table[s.site[p]] != p && p != Upcoming(s.bg) &&
    forall u :: s.Cache(u).fn == p ==> s.Cache(u).gen < s.gen
  }

  /** p was in the table once. */
  predicate Known(s: State, p: Page) {
    p in s.site && s.site[p] in s.table && p != Upcoming(s.bg)
  }

  ghost predicate TableOk(s: State) {
    0 !in s.site &&
    (forall id :: id in s.table && s.table[id] != 0 ==>
      s.table[id] in s.site && s.site[s.table[id]] == id && s.table[id] !in s.gone && s.table[id] != Upcoming(s.bg)) &&
    (Upcoming(s.bg) != 0 ==>
      s.bg.page in s.site && s.site[s.bg.page] == s.bg.id && (s.bg.Installing? ==> s.bg.id in s.table))
  }

  ghost predicate ThreadOk(s: State, t: Tid) {
    var c, pc := s.Cache(t), s.Pc(t);
    c.gen <= s.gen && (c.fn != 0 ==> Known(s, c.fn)) &&
    s.Epoch(t) <= s.epoch &&
    (Holds(pc) != 0 ==> Known(s, Holds(pc))) &&
    (!pc.Outside? ==> t != 0) &&
    (pc.RegLoad? || pc.RegLink? || pc.RegSwap? ==> t !in s.registered) &&
    (pc.RegSwap? ==> t in s.next && s.next[t] == pc.head) &&
    (pc.EpochStore? ==> pc.v <= s.epoch) &&
    (pc.Looking? ==> pc.gen <= s.gen) &&
    (pc.In? || pc.Reverting? || pc.Bumping? || pc.Queueing? || pc.Leaving? ==> pc.page != 0) &&
    (pc.Bumping? && pc.page in s.site ==> s.Entry(s.site[pc.page]) != pc.page) &&
    (pc.Queueing? ==> Cut(s, pc.page))
  }

  ghost predicate ThreadsOk(s: State) { forall t: Tid :: ThreadOk(s, t) }

  ghost predicate GoneOk(s: State) {
    (forall p :: p in s.gone ==> Cut(s, p)) && (forall p :: p in s.queue ==> p in s.gone) &&
    (s.bg.Retiring? ==> s.bg.page in s.gone)
  }

  /** Whoever still holds a pending page last passed a safe point no later than its retirement. */
  ghost predicate PendingOk(s: State) {
    forall i :: 0 <= i < |s.pending| ==>
      s.pending[i].page in s.gone && s.pending[i].epoch < s.epoch &&
      forall t :: Holds(s.Pc(t)) == s.pending[i].page ==> s.Epoch(t) <= s.pending[i].epoch
  }

  ghost predicate MappedOk(s: State) {
    forall p :: p in s.site && p !in s.mapped ==>
      p in s.gone && forall t :: t in s.registered ==> Holds(s.Pc(t)) != p
  }

  ghost predicate NodesOk(s: State) {
    Chain(s.next, s.head, s.nodes) && Distinct(s.nodes) && forall t :: t in s.registered <==> t in s.nodes
  }

  /** Any registered holder of a page due for unmapping is still to be scanned. */
  ghost predicate Behind(s: State, min: nat, rest: seq<Tid>) {
    forall i, t ::
      (0 <= i < |s.pending| && s.pending[i].epoch < min && t in s.registered &&
       Holds(s.Pc(t)) == s.pending[i].page) ==> t in rest
  }

  /** The part of the thread list still to be walked. */
  ghost predicate Rest(s: State, at: Tid, rest: seq<Tid>) {
    rest != [] && Chain(s.next, at, rest) && Distinct(rest) && forall t :: t in rest ==> t in s.registered
  }

  ghost predicate ScanOk(s: State) {
    match s.bg
    case Reading(min, at, rest) => Rest(s, at, rest) && Behind(s, min, rest)
    case Stepping(min, at, rest) => Rest(s, at, rest) && Behind(s, min, rest[1..])
    case Sweeping(min, i, out) => out <= i <= |s.pending| && Behind(s, min, [])
    case _ => true
  }

  ghost predicate Inv(s: State) {
    TableOk(s) && ThreadsOk(s) && GoneOk(s) && PendingOk(s) && MappedOk(s) && NodesOk(s) && ScanOk(s)
  }

  lemma InitInv(enabled: bool)
    ensures Inv(Init(enabled))
  {
  }
}
