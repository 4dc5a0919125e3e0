/** The provided-buffer ring of feature_provided_buffers.h: buffers go round between the kernel and the application. */
module BufferRing {
  import opened Bits
  import opened Lists
  import F = Fifo

  type Bid = nat

  /** The ring's head and tail are 16-bit counters. */
  const COUNTER_SIZE: nat := 0x1_0000

  /** The kernel's answer: `bid` is valid only with the buffer flag. */
  datatype Completion = Completion(res: int, hasBuffer: bool, bid: Bid)

  /** `await_resume`: errors and completions without a buffer yield the bid zero. */
  function Resumed(c: Completion): (int, Bid) {
    if c.res < 0 then (c.res, 0) else if !c.hasBuffer then (c.res, 0) else (c.res, c.bid)
  }

  /** Every buffer is in the ring once or held by the application, never both. */
  ghost predicate Conserved(n: nat, queue: seq<Bid>, held: set<Bid>) {
    && (forall b: Bid {:trigger b in held} :: b in held ==> b < n)
    && forall b: Bid {:trigger Count(queue, b)} :: Count(queue, b) + One(b in held) == One(b < n)
  }

  /** Returning a buffer conserves them if and only if the application held it. */
  lemma ReturnConservesIff(n: nat, queue: seq<Bid>, held: set<Bid>, b: Bid)
    requires Conserved(n, queue, held)
    ensures Conserved(n, queue + [b], held - {b}) <==> b in held
  {
    forall c: Bid ensures Count(queue + [b], c) + One(c in held) == One(c < n) + One(b == c) {
      CountConcat(queue, [b], c);
      assert Count(queue, c) + One(c in held) == One(c < n);
    }
    if b in held {
      forall c: Bid ensures Count(queue + [b], c) + One(c in held - {b}) == One(c < n) {}
    } else {
      assert Count(queue + [b], b) + One(b in held - {b}) == One(b < n) + 1;
    }
  }

  /** What the kernel may answer: with the oldest buffer of the ring, or with none; errors carry none. */
  predicate Possible(queue: seq<Bid>, c: Completion) {
    c.hasBuffer ==> c.res >= 0 && queue != [] && c.bid == queue[0]
  }

  /** Ring and held buffers once the kernel has given this answer. */
  function Answered(queue: seq<Bid>, held: set<Bid>, c: Completion): (seq<Bid>, set<Bid>)
    requires Possible(queue, c)
  {
    if c.hasBuffer then (queue[1..], held + {c.bid}) else (queue, held)
  }

  /**
   A reader that returns the id `await_resume` gave it does right, if and only if its completion carried a buffer:
   then, and only then, every buffer is accounted for and all others still hold what they held before the read.
   Buffer zero in somebody else's hands does not help: it would be taken away.
   */
  lemma ReturnIsRightIff(n: nat, queue: seq<Bid>, held: set<Bid>, c: Completion)
    requires Conserved(n, queue, held) && Possible(queue, c)
    ensures
      var (queue', held') := Answered(queue, held, c);
      var id := Resumed(c).1;
      (Conserved(n, queue' + [id], held' - {id}) && held' - {id} == held) <==> c.hasBuffer
  {
    var (queue', held') := Answered(queue, held, c);
    var id := Resumed(c).1;
    if c.hasBuffer {
      TakenIsHeld(n, queue, held);
      ReturnConservesIff(n, queue', held', id);
      assert held' - {id} == held;
    } else {
      ReturnConservesIff(n, queue, held, id);
    }
  }

  /**
   End of file, or an error: the id is zero, whatever the completion says. Returning it puts buffer zero into the ring a
   second time, or into the ring while somebody holds it.
   */
  lemma EndOfFileDuplicates(n: nat, queue: seq<Bid>, held: set<Bid>, c: Completion)
    requires Conserved(n, queue, held) && Possible(queue, c) && !c.hasBuffer && n > 0
    ensures Resumed(c) == (c.res, 0)
    ensures Count(queue + [Resumed(c).1], 0) + One(0 in held) == 2
  {
    var zero: Bid := 0;
    CountConcat(queue, [zero], zero);
    assert Count(queue, zero) + One(zero in held) == One(zero < n);
  }

  lemma {:induction false} NoMoreThan(n: nat, queue: seq<Bid>)
    requires forall b: Bid :: Count(queue, b) <= One(b < n)
    ensures |queue| <= n
    decreases n
  {
    if queue != [] {
      assert Count(queue, queue[0]) <= One(queue[0] < n);
      var last: Bid := n - 1;
      CountIn(queue, last);
      if last in queue {
        var i := IndexOf(queue, last);
        forall b: Bid ensures Count(RemoveAt(queue, i), b) <= One(b < last) {
          assert Count(queue, b) <= One(b < n);
          CountRemoveAt(queue, i, b);
        }
        NoMoreThan(last, RemoveAt(queue, i));
      } else {
        forall b: Bid ensures Count(queue, b) <= One(b < last) {
          assert Count(queue, b) <= One(b < n);
        }
        NoMoreThan(last, queue);
      }
    }
  }

  /** Somebody who holds a buffer knows that the ring has room for it. */
  lemma HeldLeavesRoom(n: nat, queue: seq<Bid>, held: set<Bid>, b: Bid)
    requires Conserved(n, queue, held) && b in held
    ensures |queue| < n
  {
    forall c: Bid ensures Count(queue + [b], c) <= One(c < n) {
      CountConcat(queue, [b], c);
      assert Count(queue, c) + One(c in held) == One(c < n);
    }
    NoMoreThan(n, queue + [b]);
  }

  /** Reducing by a multiple first changes nothing. */
  lemma ReduceTwice(x: nat, off: nat, n: nat, m: nat)
    requires n > 0 && m > 0 && n * m > 0
    ensures (x % (n * m) + off) % n == (x + off) % n
  {
    var q, y := x / (n * m), x % (n * m) + off;
    assert x == (n * m) * q + x % (n * m);
    assert y == n * (y / n) + y % n;
    ModOf(x + off, n, m * q + y / n, y % n);
  }

  /** A 16-bit counter, masked, is the unbounded one reduced modulo the ring's size. */
  lemma MaskedCounter(x: nat, off: nat, n: nat, k: nat)
    requires n == Pow2(k) && k <= 16
    ensures And(x % COUNTER_SIZE + off, n - 1) == (x + off) % n
  {
    AndMask(x % COUNTER_SIZE + off, k);
    CounterIs(k);
    ReduceTwice(x, off, n, Pow2(16 - k));
  }

  lemma CounterIs(k: nat)
    requires k <= 16
    ensures Pow2(k) * Pow2(16 - k) == COUNTER_SIZE
  {
    Pow2Sum(k, 16 - k);
    Pow2Sum(8, 8);
    Pow2Sum(4, 4);
    assert Pow2(4) == 16;
  }

  function Place(n: nat, taken: nat, i: nat): (p: nat)
    requires n > 0
    ensures p < n
  {
    (taken + i) % n
  }

  /** The slots at distances 0, 1, ... from `taken` hold the queue. */
  ghost predicate Laid(slots: seq<Bid>, taken: nat, queue: seq<Bid>) {
    && |slots| > 0 && |queue| <= |slots|
    && forall i {:trigger queue[i]} :: 0 <= i < |queue| ==> queue[i] == slots[Place(|slots|, taken, i)]
  }

  /** With room, writing the slot behind the queue overwrites none of it. */
  lemma LaidMore(slots: seq<Bid>, taken: nat, queue: seq<Bid>, b: Bid)
    requires Laid(slots, taken, queue) && |queue| < |slots|
    ensures Laid(slots[Place(|slots|, taken, |queue|) := b], taken, queue + [b])
  {
    forall i {:trigger queue[i]} | 0 <= i < |queue| ensures Place(|slots|, taken, i) != Place(|slots|, taken, |queue|) {
      PlacesDiffer(|slots|, taken, i, |queue|);
    }
  }

  lemma PlacesDiffer(n: nat, taken: nat, i: nat, j: nat)
    requires i < j < n
    ensures Place(n, taken, i) != Place(n, taken, j)
  {
    if Place(n, taken, i) == Place(n, taken, j) {
      F.SameSlot(taken + i, taken + j, n);
    }
  }

  lemma TakenIsHeld(n: nat, queue: seq<Bid>, held: set<Bid>)
    requires Conserved(n, queue, held) && queue != []
    ensures queue[0] < n && queue[0] !in held && Conserved(n, queue[1..], held + {queue[0]})
  {
    assert Count(queue, queue[0]) + One(queue[0] in held) == One(queue[0] < n);
    forall b: Bid ensures Count(queue[1..], b) + One(b in held + {queue[0]}) == One(b < n) {
      assert Count(queue, b) + One(b in held) == One(b < n);
    }
  }

  /** 0, 1, ..., n - 1. */
  function Upto(n: nat): (s: seq<Bid>)
    ensures |s| == n && forall i {:trigger s[i]} :: 0 <= i < n ==> s[i] == i
  {
    if n == 0 then [] else Upto(n - 1) + [n - 1]
  }

  lemma {:induction false} UptoCounts(n: nat, b: Bid)
    ensures Count(Upto(n), b) == One(b < n)
  {
    if n > 0 {
      UptoCounts(n - 1, b);
      CountConcat<Bid>(Upto(n - 1), [n - 1], b);
    }
  }

  function Wrapped(x: nat): nat {
    x % COUNTER_SIZE
  }

  lemma WrappedAdd(x: nat, y: nat)
    ensures Wrapped(Wrapped(x) + y) == Wrapped(x + y)
  {
  }

  /** The slot that a counter and an offset denote. */
  function Masked(counter: nat, offset: nat, n: nat): nat
    requires n > 0
  {
    And(counter + offset, n - 1)
  }

  lemma MaskedIs(x: nat, offset: nat, n: nat, k: nat)
    requires n == Pow2(k) && k <= 15
    ensures Masked(Wrapped(x), offset, n) == Place(n, x, offset)
  {
    MaskedCounter(x, offset, n, k);
  }

  /** The counters and slots represent the queue. */
  ghost predicate Shaped(slots: seq<Bid>, tail: nat, head: nat, k: nat, taken: nat, queue: seq<Bid>) {
    && |slots| == Pow2(k) && k <= 15
    && tail == Wrapped(taken + |queue|) && head == Wrapped(taken)
    && Laid(slots, taken, queue)
  }

  lemma RejoinKeeps(slots: seq<Bid>, tail: nat, head: nat, k: nat, taken: nat, queue: seq<Bid>, b: Bid)
    requires Shaped(slots, tail, head, k, taken, queue) && |queue| < |slots|
    ensures Masked(tail, 0, |slots|) < |slots|
    ensures Shaped(slots[Masked(tail, 0, |slots|) := b], Wrapped(tail + 1), head, k, taken, queue + [b])
  {
    MaskedIs(taken + |queue|, 0, |slots|, k);
    assert Place(|slots|, taken + |queue|, 0) == Place(|slots|, taken, |queue|);
    LaidMore(slots, taken, queue, b);
    WrappedAdd(taken + |queue|, 1);
  }

  lemma SelectKeeps(slots: seq<Bid>, tail: nat, head: nat, k: nat, taken: nat, queue: seq<Bid>)
    requires Shaped(slots, tail, head, k, taken, queue) && queue != []
    ensures Masked(head, 0, |slots|) < |slots| && slots[Masked(head, 0, |slots|)] == queue[0]
    ensures Shaped(slots, tail, Wrapped(head + 1), k, taken + 1, queue[1..])
  {
    MaskedIs(taken, 0, |slots|, k);
    WrappedAdd(taken, 1);
  }

  /** The i-th buffer of the fill loop goes to slot i. */
  lemma FillAt(i: nat, n: nat, k: nat)
    requires n == Pow2(k) && k <= 15 && i < n
    ensures Masked(0, i, n) == i
  {
    MaskedIs(0, i, n, k);
    ModOf(i, n, 0, i);
  }

  lemma FilledIs(n: nat, k: nat)
    requires n == Pow2(k) && k <= 15
    ensures Shaped(Upto(n), Wrapped(0 + n), Wrapped(0), k, 0, Upto(n)) && Conserved(n, Upto(n), {})
  {
    forall i {:trigger Upto(n)[i]} | 0 <= i < n ensures Upto(n)[i] == Upto(n)[Place(n, 0, i)] {
      ModOf(i, n, 0, i);
    }
    forall b: Bid ensures Count(Upto(n), b) + One(b in {}) == One(b < n) {
      UptoCounts(n, b);
    }
  }

  class Ring {
    const slots: array<Bid>
    var tail: nat
    /** How far the kernel has consumed; 16 bits, like `tail`. */
    var head: nat
    ghost const exponent: nat
    /** What the kernel may take, oldest first; what the application holds; and how much the kernel ever took. */
    ghost var queue: seq<Bid>
    ghost var held: set<Bid>
    ghost var taken: nat

    ghost predicate Valid()
      reads this, slots
    {
      Shaped(slots[..], tail, head, exponent, taken, queue) && Conserved(slots.Length, queue, held)
    }

    /** `io_uring_buf_ring_add`. */
    method Add(bid: Bid, offset: nat)
      requires slots.Length > 0 && Masked(tail, offset, slots.Length) < slots.Length
      modifies slots
      ensures slots[..] == old(slots[..])[Masked(tail, offset, slots.Length) := bid]
    {
      slots[And(tail + offset, slots.Length - 1)] := bid;
    }

    /** `io_uring_buf_ring_advance`. */
    method AdvanceTail(count: nat)
      modifies this`tail
      ensures tail == Wrapped(old(tail) + count)
    {
      tail := (tail + count) % COUNTER_SIZE;
    }

    /** `make_provided_buffers`: every buffer is added at its own offset, then all are published at once. */
    constructor (n: nat, ghost k: nat)
      requires n == Pow2(k) && k <= 15
      ensures Valid() && slots.Length == n && queue == Upto(n) && held == {} && fresh(slots)
    {
      slots := new Bid[n];
      exponent := k;
      tail, head, held, taken, queue := 0, 0, {}, 0, [];
      new;
      for i := 0 to n
        invariant tail == 0 && head == 0 && held == {} && taken == 0 && slots.Length == n
        invariant slots[..i] == Upto(i)
      {
        FillAt(i, n, k);
        Add(i, i);
        assert slots[..i + 1] == slots[..i] + [i];
      }
      assert slots[..] == slots[..n];
      FilledIs(n, k);
      AdvanceTail(n);
      queue := Upto(n);
    }

    /** The kernel takes the oldest buffer for a completion: the application holds it now. */
    method Select(res: int) returns (c: Completion)
      requires Valid() && queue != [] && res >= 0
      modifies this`head, this`queue, this`held, this`taken
      ensures Valid()
      ensures c == Completion(res, true, old(queue)[0]) && Resumed(c) == (res, c.bid)
      ensures queue == old(queue)[1..] && held == old(held) + {c.bid} && c.bid !in old(held)
    {
      SelectKeeps(slots[..], tail, head, exponent, taken, queue);
      TakenIsHeld(slots.Length, queue, held);
      c := Completion(res, true, slots[And(head + 0, slots.Length - 1)]);
      head := (head + 1) % COUNTER_SIZE;
      queue, held, taken := queue[1..], held + {queue[0]}, taken + 1;
    }

    /** `buffer_rejoin` of a buffer that the application holds: it lands behind the queue, on no unconsumed slot. */
    method Rejoin(bid: Bid)
      requires Valid() && bid in held
      modifies this`tail, this`queue, this`held, slots
      ensures Valid()
      ensures queue == old(queue) + [bid] && held == old(held) - {bid}
    {
      HeldLeavesRoom(slots.Length, queue, held, bid);
      ReturnConservesIff(slots.Length, queue, held, bid);
      RejoinKeeps(slots[..], tail, head, exponent, taken, queue, bid);
      Add(bid, 0);
      AdvanceTail(1);
      queue, held := queue + [bid], held - {bid};
    }
  }
}
