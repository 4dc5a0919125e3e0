/**
 The ring of utils.h with its two threads interleaved at every load and store. An index is an atomic with a
 modification order: a thread's load of the other thread's index may return any value of that order that is not older
 than the one it saw last. Slots are plain memory: no two threads ever touch the same one at the same time, which is
 one of the results.
 */
module SpscRing {
  import opened Bits
  import opened Fifo

  type Elem = nat

  datatype Producer = Resting | GotIn(elem: Elem, at: nat) | MayWrite(elem: Elem, at: nat, next: nat) | MayPublish(elem: Elem, at: nat, next: nat)

  datatype Consumer = Waiting | SawIn(seen: nat) | MayRead(at: nat) | MayFree(at: nat, elem: Elem)

  /**
   `ins` and `outs` are the values the two indices have had, the last one current; `sawOut` and `sawIn` say how far
   the producer and the consumer have seen the other's. `pushed` and `popped` are what has gone in and come out.
   */
  datatype State = State(
    size: nat, slots: seq<Elem>, ins: seq<nat>, outs: seq<nat>, sawOut: nat, sawIn: nat,
    producer: Producer, consumer: Consumer, pushed: seq<Elem>, popped: seq<Elem>)

  datatype Act =
    | BeginPush(elem: Elem) | LoadOut(k: nat) | WriteSlot | StoreIn
    | BeginPop(k: nat) | LoadOwnOut | ReadSlot | StoreOut

  predicate Enabled(s: State, act: Act) {
    match act
    case BeginPush(_) => s.producer.Resting? && s.ins != []
    case LoadOut(k) => s.producer.GotIn? && s.sawOut <= k < |s.outs| && s.size > 0
    case WriteSlot => s.producer.MayWrite? && s.producer.at < |s.slots|
    case StoreIn => s.producer.MayPublish?
    case BeginPop(k) => s.consumer.Waiting? && s.sawIn <= k < |s.ins|
    case LoadOwnOut => s.consumer.SawIn? && s.outs != []
    case ReadSlot => s.consumer.MayRead? && s.consumer.at < |s.slots|
    case StoreOut => s.consumer.MayFree? && s.size > 0
  }

  function Stepped(s: State, act: Act): State
    requires Enabled(s, act)
  {
    match act
    case BeginPush(elem) => s.(producer := GotIn(elem, s.ins[|s.ins| - 1]))
    case LoadOut(k) =>
      var p := s.producer;
      var next := And(p.at + 1, s.size - 1);
      s.(sawOut := k, producer := if next == s.outs[k] then Resting else MayWrite(p.elem, p.at, next))
    case WriteSlot =>
      var p := s.producer;
      s.(slots := s.slots[p.at := p.elem], producer := MayPublish(p.elem, p.at, p.next))
    case StoreIn => s.(ins := s.ins + [s.producer.next], pushed := s.pushed + [s.producer.elem], producer := Resting)
    case BeginPop(k) => s.(sawIn := k, consumer := SawIn(s.ins[k]))
    case LoadOwnOut =>
      var out := s.outs[|s.outs| - 1];
      s.(consumer := if s.consumer.seen == out then Waiting else MayRead(out))
    case ReadSlot => s.(consumer := MayFree(s.consumer.at, s.slots[s.consumer.at]))
    case StoreOut =>
      s.(outs := s.outs + [And(s.consumer.at + 1, s.size - 1)], popped := s.popped + [s.consumer.elem], consumer := Waiting)
  }

  // ---------------------------------------------------------------- invariant

  ghost predicate Indices(s: State) {
    && SizeAccepted(s.size) && |s.slots| == s.size
    && |s.ins| == |s.pushed| + 1 && |s.outs| == |s.popped| + 1
    && (forall k {:trigger s.ins[k]} :: 0 <= k < |s.ins| ==> s.ins[k] == k % s.size)
    && (forall k {:trigger s.outs[k]} :: 0 <= k < |s.outs| ==> s.outs[k] == k % s.size)
    && s.sawOut <= |s.popped| <= s.sawIn <= |s.pushed| <= s.sawOut + s.size - 1
  }

  predicate ProducerOk(s: State)
    requires s.size > 0
  {
    match s.producer
    case Resting => true
    case GotIn(_, at) => at == |s.pushed| % s.size
    case MayWrite(_, at, next) => Claimed(s, at, next)
    case MayPublish(elem, at, next) => Claimed(s, at, next) && at < |s.slots| && s.slots[at] == elem
  }

  /** The producer has seen that there is room for one more. */
  predicate Claimed(s: State, at: nat, next: nat)
    requires s.size > 0
  {
    at == |s.pushed| % s.size && next == (|s.pushed| + 1) % s.size && |s.pushed| + 1 <= s.sawOut + s.size - 1
  }

  predicate ConsumerOk(s: State)
    requires s.size > 0
  {
    match s.consumer
    case Waiting => true
    case SawIn(seen) => seen == s.sawIn % s.size
    case MayRead(at) => at == |s.popped| % s.size && |s.popped| < s.sawIn
    case MayFree(at, elem) =>
      at == |s.popped| % s.size && |s.popped| < s.sawIn && |s.popped| < |s.pushed| && elem == s.pushed[|s.popped|]
  }

  ghost predicate Holding(s: State)
    requires s.size > 0 && |s.slots| == s.size
  {
    && s.popped <= s.pushed
    && forall i {:trigger s.pushed[i]} :: |s.popped| <= i < |s.pushed| ==> s.slots[i % s.size] == s.pushed[i]
  }

  ghost predicate Inv(s: State) {
    Indices(s) && ProducerOk(s) && ConsumerOk(s) && Holding(s)
  }

  function Start(slots: seq<Elem>): State {
    State(|slots|, slots, [0], [0], 0, 0, Resting, Waiting, [], [])
  }

  /** The next masked index, for a counter reduced modulo the size. */
  lemma MaskedCounter(size: nat, n: nat)
    requires SizeAccepted(size)
    ensures And(n % size + 1, size - 1) == (n + 1) % size
  {
    MaskedNext(size, n % size);
    NextMod(n, size);
  }

  /** The slot the producer is about to write is none of those that hold an unconsumed element. */
  lemma FreshSlot(s: State, i: nat)
    requires Indices(s) && |s.popped| <= i < |s.pushed| && |s.pushed| + 1 <= s.sawOut + s.size - 1
    ensures i % s.size != |s.pushed| % s.size
  {
    if i % s.size == |s.pushed| % s.size {
      SameSlot(i, |s.pushed|, s.size);
    }
  }

  // ---------------------------------------------------------------- every step

  lemma SameLap(k: nat, size: nat)
    requires size > 0
    ensures (k + size) % size == k % size
  {
    ModOf(k + size, size, k / size + 1, k % size);
  }

  /** Comparing masked indices tells full from not full: the producer is never more than one lap ahead. */
  lemma FullIff(n: nat, k: nat, size: nat)
    requires size > 0 && k <= n <= k + size - 1
    ensures (n + 1) % size == k % size <==> n - k == size - 1
  {
    if n + 1 == k + size {
      SameLap(k, size);
    } else if (n + 1) % size == k % size {
      SameSlot(k, n + 1, size);
    }
  }

  /** `push` gives up exactly when, by the index it has just seen, SIZE - 1 elements are queued. */
  lemma RefusedIff(s: State, k: nat)
    requires Inv(s) && Enabled(s, LoadOut(k))
    ensures Stepped(s, LoadOut(k)).producer.Resting? <==> |s.pushed| - k == s.size - 1
  {
    MaskedCounter(s.size, |s.pushed|);
    FullIff(|s.pushed|, k, s.size);
  }

  /** `pop` finds nothing exactly when, by the index it saw, everything pushed has been popped. */
  lemma EmptyIff(s: State)
    requires Inv(s) && Enabled(s, LoadOwnOut)
    ensures Stepped(s, LoadOwnOut).consumer.Waiting? <==> s.sawIn == |s.popped|
  {
    if s.sawIn % s.size == |s.popped| % s.size {
      SameSlot(|s.popped|, s.sawIn, s.size);
    }
  }

  lemma ProducerKeeps(s: State, act: Act)
    requires Inv(s) && Enabled(s, act) && (act.BeginPush? || act.LoadOut? || act.WriteSlot? || act.StoreIn?)
    ensures Inv(Stepped(s, act))
  {
    var s' := Stepped(s, act);
    MaskedCounter(s.size, |s.pushed|);
    if act.LoadOut? {
      RefusedIff(s, act.k);
    } else if act.WriteSlot? {
      forall i {:trigger s.pushed[i]} | |s.popped| <= i < |s.pushed| ensures s'.slots[i % s.size] == s.pushed[i] {
        FreshSlot(s, i);
      }
    }
  }

  lemma ConsumerKeeps(s: State, act: Act)
    requires Inv(s) && Enabled(s, act) && (act.BeginPop? || act.LoadOwnOut? || act.ReadSlot? || act.StoreOut?)
    ensures Inv(Stepped(s, act))
  {
    MaskedCounter(s.size, |s.popped|);
    if act.LoadOwnOut? {
      EmptyIff(s);
    } else if act.ReadSlot? {
      assert s.slots[|s.popped| % s.size] == s.pushed[|s.popped|];
    }
  }

  // ---------------------------------------------------------------- runs

  ghost predicate Run(ss: seq<State>, acts: seq<Act>) {
    && |ss| == |acts| + 1 && ss[0] == Start(ss[0].slots) && SizeAccepted(|ss[0].slots|)
    && forall i {:trigger acts[i]} :: 0 <= i < |acts| ==> Enabled(ss[i], acts[i]) && ss[i + 1] == Stepped(ss[i], acts[i])
  }

  lemma {:induction false} EveryStateInv(ss: seq<State>, acts: seq<Act>, i: nat)
    requires Run(ss, acts) && i < |ss|
    ensures Inv(ss[i])
  {
    if i == 0 {
      ModOf(0, |ss[0].slots|, 0, 0);
    } else {
      EveryStateInv(ss, acts, i - 1);
      var act := acts[i - 1];
      if act.BeginPush? || act.LoadOut? || act.WriteSlot? || act.StoreIn? {
        ProducerKeeps(ss[i - 1], act);
      } else {
        ConsumerKeeps(ss[i - 1], act);
      }
    }
  }

  /** What the ring stands for: a queue of the elements published and not yet released. */
  function Queue(s: State): seq<Elem>
    requires |s.popped| <= |s.pushed|
  {
    s.pushed[|s.popped|..]
  }

  /** A bounded FIFO of capacity SIZE - 1, one step. */
  predicate FifoStep(capacity: nat, q: seq<Elem>, q': seq<Elem>, act: Act, s: State) {
    match act
    case StoreIn => s.producer.MayPublish? && |q| < capacity && q' == q + [s.producer.elem]
    case StoreOut => s.consumer.MayFree? && q == [s.consumer.elem] + q'
    case _ => q' == q
  }

  /**
   Under every interleaving, and however stale the indices the two threads see, the ring is a FIFO of capacity
   SIZE - 1: publishing an index enqueues and never overfills, releasing one dequeues the oldest element, no other
   step changes the queue; and what has come out is a prefix of what has gone in.
   */
  lemma RefinesFifo(ss: seq<State>, acts: seq<Act>, i: nat)
    requires Run(ss, acts) && i < |acts|
    ensures
      var s, s' := ss[i], ss[i + 1];
      && |s.popped| <= |s.pushed| && |s'.popped| <= |s'.pushed|
      && FifoStep(|ss[0].slots| - 1, Queue(s), Queue(s'), acts[i], s)
      && s'.popped <= s'.pushed && |Queue(s')| <= |ss[0].slots| - 1
  {
    SizeStays(ss, acts, i);
    EveryStateInv(ss, acts, i);
    EveryStateInv(ss, acts, i + 1);
    SizeStays(ss, acts, i + 1);
    var s := ss[i];
    if acts[i].StoreOut? {
      assert Queue(s) == [s.pushed[|s.popped|]] + s.pushed[|s.popped| + 1..];
    }
  }

  lemma {:induction false} SizeStays(ss: seq<State>, acts: seq<Act>, i: nat)
    requires Run(ss, acts) && i < |ss|
    ensures ss[i].size == |ss[0].slots|
  {
    if i > 0 {
      SizeStays(ss, acts, i - 1);
      assert ss[i] == Stepped(ss[i - 1], acts[i - 1]);
    }
  }

  /**
   The producer writes a slot only when it holds no unconsumed element; in particular the consumer is not reading it.
   */
  lemma NeverOverwrites(ss: seq<State>, acts: seq<Act>, i: nat, j: nat)
    requires Run(ss, acts) && i < |acts| && acts[i].WriteSlot?
    requires |ss[i].popped| <= j < |ss[i].pushed|
    ensures ss[i].size > 0 && ss[i].producer.at != j % ss[i].size
    ensures ss[i].consumer.MayRead? ==> ss[i].producer.at != ss[i].consumer.at
  {
    EveryStateInv(ss, acts, i);
    FreshSlot(ss[i], j);
    if ss[i].consumer.MayRead? {
      FreshSlot(ss[i], |ss[i].popped|);
    }
  }

  // ---------------------------------------------------------------- calls

  /** A call of `push` that has not returned, with its argument; of `pop`, with the index it saw. */
  datatype PushCall = NoPush | Pushing(arg: Elem)
  datatype PopCall = NoPop | Popping(seen: nat)

  /** What callers observe: the calls under way, the arguments accepted and the values handed out. */
  datatype Ledger = Ledger(push: PushCall, accepted: seq<Elem>, pop: PopCall, delivered: seq<Elem>)

  /**
   The history of the calls, told without ring, slots or masks: a push is refused when SIZE - 1 more have been
   accepted than it saw released, and otherwise its argument is accepted; a pop that saw as many accepted as delivered
   delivers nothing, and any other the oldest argument that has not been delivered.
   */
  function Told(size: nat, acts: seq<Act>): Ledger {
    if acts == [] then Ledger(NoPush, [], NoPop, [])
    else
      var l := Told(size, acts[..|acts| - 1]);
      match acts[|acts| - 1]
      case BeginPush(elem) => l.(push := Pushing(elem))
      case LoadOut(k) => if |l.accepted| - k == size - 1 then l.(push := NoPush) else l
      case WriteSlot => l
      case StoreIn => if l.push.Pushing? then l.(push := NoPush, accepted := l.accepted + [l.push.arg]) else l
      case BeginPop(k) => l.(pop := Popping(k))
      case LoadOwnOut => if l.pop == Popping(|l.delivered|) then l.(pop := NoPop) else l
      case ReadSlot => l
      case StoreOut =>
        if |l.delivered| < |l.accepted| then l.(pop := NoPop, delivered := l.delivered + [l.accepted[|l.delivered|]]) else l
  }

  /** The ring and its threads are where the calls have brought them. */
  predicate Tells(s: State, l: Ledger) {
    && s.pushed == l.accepted && s.popped == l.delivered
    && l.push == (match s.producer
                  case Resting => NoPush
                  case GotIn(elem, _) => Pushing(elem)
                  case MayWrite(elem, _, _) => Pushing(elem)
                  case MayPublish(elem, _, _) => Pushing(elem))
    && l.pop == if s.consumer.Waiting? then NoPop else Popping(s.sawIn)
  }

  /**
   At every moment of every run, what is in the ring, what has come out of it and which calls are under way follow from
   the calls and the indices they saw: no argument is lost, changed, invented or accepted twice.
   */
  lemma {:induction false} CallsAreServed(ss: seq<State>, acts: seq<Act>, i: nat)
    requires Run(ss, acts) && i < |ss|
    ensures Tells(ss[i], Told(|ss[0].slots|, acts[..i]))
  {
    if i > 0 {
      CallsAreServed(ss, acts, i - 1);
      SizeStays(ss, acts, i - 1);
      EveryStateInv(ss, acts, i - 1);
      assert acts[..i][..i - 1] == acts[..i - 1];
      CallServed(ss[i - 1], acts[i - 1], acts[..i], Told(|ss[0].slots|, acts[..i - 1]));
    }
  }

  lemma CallServed(s: State, act: Act, acts: seq<Act>, l: Ledger)
    requires Inv(s) && Enabled(s, act) && Tells(s, l)
    requires acts != [] && acts[|acts| - 1] == act && l == Told(s.size, acts[..|acts| - 1])
    ensures Tells(Stepped(s, act), Told(s.size, acts))
  {
    if act.LoadOut? {
      RefusedIff(s, act.k);
    } else if act.LoadOwnOut? {
      EmptyIff(s);
    }
  }

  /** The values that come out are the first of the arguments that were accepted, in the order of their calls. */
  lemma ComeOutInOrder(ss: seq<State>, acts: seq<Act>, i: nat)
    requires Run(ss, acts) && i < |ss|
    ensures ss[i].popped == Told(|ss[0].slots|, acts[..i]).delivered <= Told(|ss[0].slots|, acts[..i]).accepted
  {
    CallsAreServed(ss, acts, i);
    EveryStateInv(ss, acts, i);
  }

  predicate ByProducer(act: Act) { act.BeginPush? || act.LoadOut? || act.WriteSlot? || act.StoreIn? }

  /** Neither thread ever waits for the other: each can take a step at any moment. */
  lemma NeverStuck(ss: seq<State>, acts: seq<Act>, i: nat, elem: Elem)
    requires Run(ss, acts) && i < |ss|
    ensures exists act :: ByProducer(act) && Enabled(ss[i], act)
    ensures exists act :: !ByProducer(act) && Enabled(ss[i], act)
    ensures ss[i].producer.Resting? ==> Enabled(ss[i], BeginPush(elem))
    ensures ss[i].producer.GotIn? ==> Enabled(ss[i], LoadOut(|ss[i].popped|))
    ensures ss[i].consumer.Waiting? ==> Enabled(ss[i], BeginPop(|ss[i].pushed|))
  {
    EveryStateInv(ss, acts, i);
    var s := ss[i];
    assert Enabled(s, match s.producer
                      case Resting => BeginPush(elem)
                      case GotIn(_, _) => LoadOut(|s.popped|)
                      case MayWrite(_, _, _) => WriteSlot
                      case MayPublish(_, _, _) => StoreIn);
    assert Enabled(s, match s.consumer
                      case Waiting => BeginPop(|s.pushed|)
                      case SawIn(_) => LoadOwnOut
                      case MayRead(_) => ReadSlot
                      case MayFree(_, _) => StoreOut);
  }
}
