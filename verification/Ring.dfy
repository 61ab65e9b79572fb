/** The trace ring: one producer, one consumer, 1024 slots, every access to a shared word a step. */
module Ring {
  import opened Lists

  const CAPACITY: nat := 1024

  datatype Event = Event(site: nat, size: nat, ptr: nat, tid: nat)

  datatype Producer =
    | Idle
    | TailLoad(ev: Event, h: nat)           // loaded head, about to load tail
    | SlotWrite(ev: Event, h: nat, t: nat)  // about to write the slot, if there is room
    | HeadStore(ev: Event, h: nat)          // about to publish

  datatype Consumer =
    | Waiting
    | HeadLoad(t: nat)                      // loaded tail, about to load head
    | SlotRead(t: nat, h: nat)              // about to read the slot, if there is one
    | TailStore(t: nat, out: Event)         // about to release it

  /** accepted and popped are history: the events published, and those handed to the consumer. */
  datatype State = State(slots: seq<Event>, head: nat, tail: nat, producer: Producer, consumer: Consumer,
                         accepted: seq<Event>, popped: seq<Event>)

  datatype Step = Push(ev: Event) | LoadTail | Write | StoreHead | Pop | LoadHead | Read | StoreTail

  predicate Enabled(s: State, step: Step) {
    |s.slots| == CAPACITY &&
    match step
    case Push(_) => s.producer.Idle?
    case LoadTail => s.producer.TailLoad?
    case Write => s.producer.SlotWrite?
    case StoreHead => s.producer.HeadStore?
    case Pop => s.consumer.Waiting?
    case LoadHead => s.consumer.HeadLoad?
    case Read => s.consumer.SlotRead?
    case StoreTail => s.consumer.TailStore?
  }

  function Next(s: State, step: Step): State
    requires Enabled(s, step)
  {
    match step
    case Push(ev) => s.(producer := TailLoad(ev, s.head))
    case LoadTail => s.(producer := SlotWrite(s.producer.ev, s.producer.h, s.tail))
    case Write =>
      var p := s.producer;
      if p.h >= p.t + CAPACITY then s.(producer := Idle)   // dropped
      else s.(slots := s.slots[p.h % CAPACITY := p.ev], producer := HeadStore(p.ev, p.h))
    case StoreHead =>
      s.(head := s.producer.h + 1, accepted := s.accepted + [s.producer.ev], producer := Idle)
    case Pop => s.(consumer := HeadLoad(s.tail))
    case LoadHead => s.(consumer := SlotRead(s.consumer.t, s.head))
    case Read =>
      var c := s.consumer;
      if c.t == c.h then s.(consumer := Waiting)           // empty
      else s.(consumer := TailStore(c.t, s.slots[c.t % CAPACITY]))
    case StoreTail =>
      s.(tail := s.consumer.t + 1, popped := s.popped + [s.consumer.out], consumer := Waiting)
  }

  function Run(s: State, steps: seq<Step>): State
    decreases |steps|
  {
    if steps == [] then s else Run(if Enabled(s, steps[0]) then Next(s, steps[0]) else s, steps[1..])
  }

  function Init(slots: seq<Event>): State { State(slots, 0, 0, Idle, Waiting, [], []) }

  /** The unread slots hold the accepted events not yet popped, in order. */
  ghost predicate Inv(s: State) {
    |s.slots| == CAPACITY && |s.accepted| == s.head && s.tail <= s.head <= s.tail + CAPACITY &&
    s.popped == s.accepted[..s.tail] &&
    (forall k :: s.tail <= k < s.head ==> s.slots[k % CAPACITY] == s.accepted[k]) &&
    (match s.producer
     case Idle => true
     case TailLoad(_, h) => h == s.head
     case SlotWrite(_, h, t) => h == s.head && t <= s.tail
     case HeadStore(ev, h) => h == s.head && s.head < s.tail + CAPACITY && s.slots[h % CAPACITY] == ev) &&
    (match s.consumer
     case Waiting => true
     case HeadLoad(t) => t == s.tail
     case SlotRead(t, h) => t == s.tail && t <= h <= s.head
     case TailStore(t, out) => t == s.tail && t < s.head && out == s.accepted[t])
  }

  lemma WriteKeeps(s: State)
    requires Inv(s) && Enabled(s, Write)
    ensures Inv(Next(s, Write))
  {
    forall k | s.tail <= k < s.head && s.head < s.tail + CAPACITY
      ensures k % CAPACITY != s.head % CAPACITY
    {
      SlotsApart(CAPACITY, k, s.head);
    }
  }

  lemma StoreHeadKeeps(s: State)
    requires Inv(s) && Enabled(s, StoreHead)
    ensures Inv(Next(s, StoreHead))
  {
  }

  lemma StoreTailKeeps(s: State)
    requires Inv(s) && Enabled(s, StoreTail)
    ensures Inv(Next(s, StoreTail))
  {
  }

  /** The other steps move one party and write no shared word. */
  lemma ReadKeeps(s: State, step: Step)
    requires Inv(s) && Enabled(s, step) && !step.Write? && !step.StoreHead? && !step.StoreTail?
    ensures Inv(Next(s, step))
  {
  }

  lemma StepKeeps(s: State, step: Step)
    requires Inv(s) && Enabled(s, step)
    ensures Inv(Next(s, step))
  {
    hide Inv, Next, Enabled;
    match step
    case Write => WriteKeeps(s);
    case StoreHead => StoreHeadKeeps(s);
    case StoreTail => StoreTailKeeps(s);
    case _ => ReadKeeps(s, step);
  }

  lemma {:induction false} RunKeeps(s: State, steps: seq<Step>)
    requires Inv(s)
    ensures Inv(Run(s, steps))
    decreases |steps|
  {
    hide Inv, Next, Enabled;
    if steps != [] {
      if Enabled(s, steps[0]) {
        StepKeeps(s, steps[0]);
        RunKeeps(Next(s, steps[0]), steps[1..]);
      } else {
        RunKeeps(s, steps[1..]);
      }
    }
  }

  /** The events still in the ring, oldest first. */
  ghost function Buffered(s: State): (q: seq<Event>)
    requires |s.slots| == CAPACITY && s.tail <= s.head
    ensures |q| == s.head - s.tail
  {
    seq(s.head - s.tail, i requires 0 <= i < s.head - s.tail => s.slots[(s.tail + i) % CAPACITY])
  }

  /** A lossless queue but for refused pushes: in every interleaving, the popped events followed by
      the buffered ones are the accepted ones, in order, and at most 1024 are buffered. */
  lemma RingIsFifo(slots: seq<Event>, steps: seq<Step>)
    requires |slots| == CAPACITY
    ensures var s := Run(Init(slots), steps);
            |s.slots| == CAPACITY && s.tail <= s.head <= s.tail + CAPACITY &&
            s.popped + Buffered(s) == s.accepted
  {
    hide Run;
    RunKeeps(Init(slots), steps);
    var s := Run(Init(slots), steps);
    assert s.accepted == s.accepted[..s.tail] + s.accepted[s.tail..];
    assert Buffered(s) == s.accepted[s.tail..];
  }

  /** Writing a slot never overwrites an unread event. */
  lemma NoUnreadOverwritten(slots: seq<Event>, steps: seq<Step>, k: nat)
    requires |slots| == CAPACITY
    requires var s := Run(Init(slots), steps); Enabled(s, Write) && s.tail <= k < s.head
    ensures var s := Run(Init(slots), steps); Next(s, Write).slots[k % CAPACITY] == s.slots[k % CAPACITY]
  {
    hide Run;
    RunKeeps(Init(slots), steps);
    var s := Run(Init(slots), steps);
    if s.head < s.tail + CAPACITY {
      SlotsApart(CAPACITY, k, s.head);
    }
  }

  // ----- what a push and a pop do -----

  ghost predicate Reached(s: State) {
    exists slots: seq<Event>, steps: seq<Step> :: |slots| == CAPACITY && Run(Init(slots), steps) == s
  }

  lemma ReachedInv(s: State)
    requires Reached(s)
    ensures Inv(s)
  {
    hide Run;
    var slots: seq<Event>, steps: seq<Step> :| |slots| == CAPACITY && Run(Init(slots), steps) == s;
    RunKeeps(Init(slots), steps);
  }

  lemma Go(s: State, step: Step, rest: seq<Step>)
    requires Enabled(s, step)
    ensures Run(s, [step] + rest) == Run(Next(s, step), rest)
  {
    hide Enabled, Next;
    assert ([step] + rest)[1..] == rest;
  }

  lemma Skip(s: State, step: Step, rest: seq<Step>)
    requires !Enabled(s, step)
    ensures Run(s, [step] + rest) == Run(s, rest)
  {
    hide Enabled, Next;
    assert ([step] + rest)[1..] == rest;
  }

  lemma Done(s: State)
    ensures Run(s, []) == s
  {
  }

  /** An uninterrupted push appends its event, unless 1024 are unread; then it changes nothing. */
  lemma PushRuns(s: State, ev: Event)
    requires Reached(s) && s.producer.Idle?
    ensures |s.slots| == CAPACITY && s.tail <= s.head
    ensures var n := Run(s, [Push(ev)] + ([LoadTail] + ([Write] + ([StoreHead] + []))));
            if s.head - s.tail == 1024 then n == s
            else
              n.accepted == s.accepted + [ev] && n.head == s.head + 1 && n.producer.Idle? &&
              n.tail == s.tail && n.popped == s.popped && n.consumer == s.consumer &&
              |n.slots| == CAPACITY && Buffered(n) == Buffered(s) + [ev]
  {
    hide Run;
    ReachedInv(s);
    var a := s.(producer := TailLoad(ev, s.head));
    var b := s.(producer := SlotWrite(ev, s.head, s.tail));
    Go(s, Push(ev), [LoadTail] + ([Write] + ([StoreHead] + [])));
    Go(a, LoadTail, [Write] + ([StoreHead] + []));
    Go(b, Write, [StoreHead] + []);
    var c := Next(b, Write);
    if s.head - s.tail == 1024 {
      Skip(c, StoreHead, []);
      Done(c);
    } else {
      Go(c, StoreHead, []);
      Done(Next(c, StoreHead));
      StepKeeps(s, Push(ev));
      StepKeeps(a, LoadTail);
      StepKeeps(b, Write);
      StepKeeps(c, StoreHead);
      BufferedIs(s);
      BufferedIs(Next(c, StoreHead));
      assert (s.accepted + [ev])[s.tail..] == s.accepted[s.tail..] + [ev];
    }
  }

  lemma BufferedIs(s: State)
    requires Inv(s)
    ensures Buffered(s) == s.accepted[s.tail..]
  {
  }

  /** An uninterrupted pop hands over the oldest unread event, unless there is none. */
  lemma PopRuns(s: State)
    requires Reached(s) && s.consumer.Waiting?
    ensures |s.slots| == CAPACITY && s.tail <= s.head
    ensures var n := Run(s, [Pop] + ([LoadHead] + ([Read] + ([StoreTail] + []))));
            if s.head == s.tail then n == s
            else n == s.(tail := s.tail + 1, popped := s.popped + [Buffered(s)[0]])
  {
    hide Run;
    ReachedInv(s);
    var a := s.(consumer := HeadLoad(s.tail));
    var b := s.(consumer := SlotRead(s.tail, s.head));
    Go(s, Pop, [LoadHead] + ([Read] + ([StoreTail] + [])));
    Go(a, LoadHead, [Read] + ([StoreTail] + []));
    Go(b, Read, [StoreTail] + []);
    var c := Next(b, Read);
    if s.head == s.tail {
      Skip(c, StoreTail, []);
      Done(c);
    } else {
      Go(c, StoreTail, []);
      Done(Next(c, StoreTail));
    }
  }

  /** Whatever the consumer does meanwhile, the producer waits with what it loaded. */
  lemma {:induction false} ProducerWaits(s: State, steps: seq<Step>)
    requires Inv(s) && s.producer.SlotWrite? && Write !in steps
    ensures Inv(Run(s, steps)) && Run(s, steps).producer == s.producer
    decreases |steps|
  {
    hide Inv;
    if steps != [] {
      assert steps[0] in steps && forall x :: x in steps[1..] ==> x in steps;
      if Enabled(s, steps[0]) {
        StepKeeps(s, steps[0]);
        ProducerWaits(Next(s, steps[0]), steps[1..]);
      } else {
        ProducerWaits(s, steps[1..]);
      }
    }
  }

  /** In any interleaving a push is refused exactly when 1024 events were unread as it loaded tail; if it is
      not, its event is what it will publish. */
  lemma RefusedExactly(s: State, between: seq<Step>)
    requires Reached(s) && s.producer.TailLoad? && Write !in between
    ensures |s.slots| == CAPACITY
    ensures var b := Run(Next(s, LoadTail), between);
            Enabled(b, Write) && (Next(b, Write).producer.Idle? <==> s.head - s.tail == 1024) &&
            (s.head - s.tail != 1024 ==> Next(b, Write).producer == HeadStore(s.producer.ev, s.head)) &&
            (s.head - s.tail == 1024 ==> Next(b, Write) == b.(producer := Idle))
  {
    hide Run;
    ReachedInv(s);
    StepKeeps(s, LoadTail);
    ProducerWaits(Next(s, LoadTail), between);
  }

  lemma {:induction false} ConsumerWaits(s: State, steps: seq<Step>)
    requires Inv(s) && s.consumer.SlotRead? && Read !in steps
    ensures Inv(Run(s, steps)) && Run(s, steps).consumer == s.consumer
    ensures s.accepted <= Run(s, steps).accepted
    decreases |steps|
  {
    hide Inv;
    if steps != [] {
      assert steps[0] in steps && forall x :: x in steps[1..] ==> x in steps;
      if Enabled(s, steps[0]) {
        StepKeeps(s, steps[0]);
        ConsumerWaits(Next(s, steps[0]), steps[1..]);
      } else {
        ConsumerWaits(s, steps[1..]);
      }
    }
  }

  /** In any interleaving a pop comes back empty exactly when nothing was unread as it loaded head; if it
      does not, it takes the event that was the oldest unread one then. */
  lemma EmptyExactly(s: State, between: seq<Step>)
    requires Reached(s) && s.consumer.HeadLoad? && Read !in between
    ensures |s.slots| == CAPACITY && s.tail <= s.head
    ensures var b := Run(Next(s, LoadHead), between);
            Enabled(b, Read) && (Next(b, Read).consumer.Waiting? <==> s.head == s.tail) &&
            (s.head != s.tail ==> Next(b, Read).consumer == TailStore(s.tail, Buffered(s)[0]))
  {
    hide Run;
    ReachedInv(s);
    StepKeeps(s, LoadHead);
    ConsumerWaits(Next(s, LoadHead), between);
    var b := Run(Next(s, LoadHead), between);
    if s.head != s.tail {
      assert b.slots[s.tail % CAPACITY] == b.accepted[s.tail] == s.accepted[s.tail];
      BufferedIs(s);
    }
  }
}
