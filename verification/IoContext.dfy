/** The coroutine scheduler of coroutine.h. */
module IoContext {
  import opened InflightClamp
  import opened Bits
  import F = Fifo

  type Handle = nat

  const NULL_HANDLE: Handle := 0
  const BATCH_MAX: nat := 32
  const RING_SIZE: nat := 64
  const ECANCELED: int := 125

  /** What a coroutine does to its context between being resumed and suspending again. */
  datatype Effect = Effect(spawned: seq<Handle>, stops: bool)

  datatype Cqe = Cqe(res: int, waiter: Handle, effect: Effect)

  /**
   What one round meets: the coroutines that other contexts hand over since the round before, the effects of the
   coroutines it resumes, in turn, and the kernel.
   */
  datatype Input = Input(switched: seq<Handle>, effects: seq<Effect>, submitted: nat, cqes: seq<Cqe>)

  /** How a round ends: it reaped; it returned early, with nothing in flight; its assertion failed. */
  datatype Status = Reaped | Idle | Aborted

  function EffectAt(es: seq<Effect>, i: nat): Effect {
    if i < |es| then es[i] else Effect([], false)
  }

  function Then(e: Effect, f: Effect): Effect {
    Effect(e.spawned + f.spawned, e.stops || f.stops)
  }

  /** What the first n resumed coroutines do, one after the other. */
  function Together(es: seq<Effect>, n: nat): Effect {
    if n == 0 then Effect([], false) else Then(Together(es, n - 1), EffectAt(es, n - 1))
  }

  /** How many coroutines the first n resumed ones spawn. */
  function SpawnedByFirst(es: seq<Effect>, n: nat): nat {
    if n == 0 then 0 else SpawnedByFirst(es, n - 1) + if n - 1 < |es| then |es[n - 1].spawned| else 0
  }

  /** What coroutine i spawned has joined the queue, behind what those before it did. */
  predicate JoinedAt(es: seq<Effect>, i: nat, joined: seq<Handle>)
    requires i < |es|
  {
    var from := SpawnedByFirst(es, i);
    from + |es[i].spawned| <= |joined| && joined[from..from + |es[i].spawned|] == es[i].spawned
  }

  /** The first n resumed coroutines have added this to the queue. */
  ghost predicate JoinedInTurn(es: seq<Effect>, n: nat, joined: seq<Handle>) {
    && |joined| == SpawnedByFirst(es, n)
    && forall i {:trigger JoinedAt(es, i, joined)} :: 0 <= i < n && i < |es| ==> JoinedAt(es, i, joined)
  }

  predicate OneStops(es: seq<Effect>, n: nat) {
    exists i {:trigger es[i]} :: 0 <= i < n && i < |es| && es[i].stops
  }

  lemma JoinedStill(es: seq<Effect>, i: nat, joined: seq<Handle>, joined': seq<Handle>)
    requires i < |es| && JoinedAt(es, i, joined) && joined <= joined'
    ensures JoinedAt(es, i, joined')
  {
    var from := SpawnedByFirst(es, i);
    assert joined'[from..from + |es[i].spawned|] == joined[from..from + |es[i].spawned|];
  }

  lemma {:induction false} BatchInTurn(es: seq<Effect>, n: nat)
    ensures JoinedInTurn(es, n, Together(es, n).spawned)
    ensures Together(es, n).stops <==> OneStops(es, n)
  {
    if n > 0 {
      BatchInTurn(es, n - 1);
      forall i | 0 <= i < n && i < |es| ensures JoinedAt(es, i, Together(es, n).spawned) {
        if i < n - 1 {
          JoinedStill(es, i, Together(es, n - 1).spawned, Together(es, n).spawned);
        }
      }
    }
  }

  /** What the coroutines of these CQEs do. Those of cancelled requests are not resumed. */
  function Aftermath(cqes: seq<Cqe>): Effect {
    if cqes == [] then Effect([], false)
    else
      var e, c := Aftermath(cqes[..|cqes| - 1]), cqes[|cqes| - 1];
      if c.res == -ECANCELED then e else Then(e, c.effect)
  }

  /** Which coroutines these CQEs resume. */
  function Woken(cqes: seq<Cqe>): seq<Handle> {
    if cqes == [] then []
    else
      var ws, c := Woken(cqes[..|cqes| - 1]), cqes[|cqes| - 1];
      if c.res == -ECANCELED then ws else ws + [c.waiter]
  }

  /** How many of the first n CQEs are those of requests that were not cancelled. */
  function Completed(cqes: seq<Cqe>, n: nat): nat
    requires n <= |cqes|
  {
    if n == 0 then 0 else Completed(cqes, n - 1) + if cqes[n - 1].res == -ECANCELED then 0 else 1
  }

  /** How many coroutines the waiters of these spawn. */
  function SpawnedBefore(cqes: seq<Cqe>, n: nat): nat
    requires n <= |cqes|
  {
    if n == 0 then 0
    else SpawnedBefore(cqes, n - 1) + if cqes[n - 1].res == -ECANCELED then 0 else |cqes[n - 1].effect.spawned|
  }

  /** The waiter of CQE i has been resumed, after those of the CQEs before it, and what it spawned has joined the queue. */
  predicate Served(cqes: seq<Cqe>, i: nat, woken: seq<Handle>, joined: seq<Handle>)
    requires i < |cqes|
  {
    var c, at, from := cqes[i], Completed(cqes, i), SpawnedBefore(cqes, i);
    && at < |woken| && woken[at] == c.waiter
    && from + |c.effect.spawned| <= |joined| && joined[from..from + |c.effect.spawned|] == c.effect.spawned
  }

  ghost predicate AllServed(cqes: seq<Cqe>, n: nat, woken: seq<Handle>, joined: seq<Handle>)
    requires n <= |cqes|
  {
    && |woken| == Completed(cqes, n) && |joined| == SpawnedBefore(cqes, n)
    && forall i {:trigger Served(cqes, i, woken, joined)} :: 0 <= i < n && cqes[i].res != -ECANCELED ==> Served(cqes, i, woken, joined)
  }

  /** The coroutine resumed as number p is the waiter of CQE i. */
  predicate ResumedBy(cqes: seq<Cqe>, i: nat, woken: seq<Handle>, p: nat) {
    i < |cqes| && cqes[i].res != -ECANCELED && Completed(cqes, i) == p && p < |woken| && woken[p] == cqes[i].waiter
  }

  predicate HasCqe(cqes: seq<Cqe>, woken: seq<Handle>, p: nat) {
    exists i: nat :: i < |cqes| && ResumedBy(cqes, i, woken, p)
  }

  /**
   Each CQE resumes its waiter once, in its turn, unless its request was cancelled; no other coroutine is resumed, and
   the queue gains nothing but what these spawn, in the same order.
   */
  ghost predicate ServedInTurn(cqes: seq<Cqe>, woken: seq<Handle>, joined: seq<Handle>) {
    && AllServed(cqes, |cqes|, woken, joined)
    && forall p: nat :: p < |woken| ==> HasCqe(cqes, woken, p)
  }

  /** One of the coroutines that these CQEs resume stops the context. */
  predicate WaiterStops(cqes: seq<Cqe>) {
    exists i {:trigger cqes[i]} :: 0 <= i < |cqes| && cqes[i].res != -ECANCELED && cqes[i].effect.stops
  }

  lemma ServedStill(cqes: seq<Cqe>, i: nat, woken: seq<Handle>, joined: seq<Handle>, woken': seq<Handle>, joined': seq<Handle>)
    requires i < |cqes| && Served(cqes, i, woken, joined) && woken <= woken' && joined <= joined'
    ensures Served(cqes, i, woken', joined')
  {
    var from, k := SpawnedBefore(cqes, i), |cqes[i].effect.spawned|;
    assert joined'[from..from + k] == joined[from..from + k];
  }

  lemma {:induction false} FirstServed(cqes: seq<Cqe>, n: nat)
    requires n <= |cqes|
    ensures AllServed(cqes, n, Woken(cqes[..n]), Aftermath(cqes[..n]).spawned)
    ensures Aftermath(cqes[..n]).stops <==> WaiterStops(cqes[..n])
  {
    if n > 0 {
      FirstServed(cqes, n - 1);
      assert cqes[..n][..n - 1] == cqes[..n - 1];
      var woken, joined := Woken(cqes[..n - 1]), Aftermath(cqes[..n - 1]).spawned;
      forall i | 0 <= i < n && cqes[i].res != -ECANCELED ensures Served(cqes, i, Woken(cqes[..n]), Aftermath(cqes[..n]).spawned) {
        if i < n - 1 {
          ServedStill(cqes, i, woken, joined, Woken(cqes[..n]), Aftermath(cqes[..n]).spawned);
        }
      }
      StopsOneMore(cqes, n);
    }
  }

  lemma StopsOneMore(cqes: seq<Cqe>, n: nat)
    requires 0 < n <= |cqes|
    ensures WaiterStops(cqes[..n]) <==> WaiterStops(cqes[..n - 1]) || (cqes[n - 1].res != -ECANCELED && cqes[n - 1].effect.stops)
  {
    if WaiterStops(cqes[..n - 1]) {
      var i :| 0 <= i < n - 1 && cqes[..n - 1][i].res != -ECANCELED && cqes[..n - 1][i].effect.stops;
      assert cqes[..n][i] == cqes[..n - 1][i];
    }
    assert cqes[..n][n - 1] == cqes[n - 1];
    forall i | 0 <= i < n - 1 ensures cqes[..n][i] == cqes[..n - 1][i] {
    }
  }

  lemma {:induction false} TurnTaken(cqes: seq<Cqe>, n: nat, p: nat) returns (i: nat)
    requires n <= |cqes| && p < Completed(cqes, n)
    ensures i < n && cqes[i].res != -ECANCELED && Completed(cqes, i) == p
  {
    if p < Completed(cqes, n - 1) {
      i := TurnTaken(cqes, n - 1, p);
    } else {
      i := n - 1;
    }
  }

  lemma InTurn(cqes: seq<Cqe>)
    ensures ServedInTurn(cqes, Woken(cqes), Aftermath(cqes).spawned)
    ensures Aftermath(cqes).stops <==> WaiterStops(cqes)
  {
    FirstServed(cqes, |cqes|);
    assert cqes[..|cqes|] == cqes;
    forall p: nat | p < |Woken(cqes)| ensures HasCqe(cqes, Woken(cqes), p) {
      var i := TurnTaken(cqes, |cqes|, p);
      assert Served(cqes, i, Woken(cqes), Aftermath(cqes).spawned);
      assert ResumedBy(cqes, i, Woken(cqes), p);
    }
  }

  /** The switch ring after these handovers: those that find it full are refused. */
  function Handed(ring: seq<Handle>, hs: seq<Handle>): (r: seq<Handle>)
    ensures ring <= r <= ring + hs
    ensures |r| > |ring| ==> |r| <= RING_SIZE - 1
    ensures r == ring + hs || |r| >= RING_SIZE - 1
  {
    if |ring| >= RING_SIZE - 1 then ring
    else if |hs| <= RING_SIZE - 1 - |ring| then ring + hs
    else ring + hs[..RING_SIZE - 1 - |ring|]
  }

  lemma HandedOneMore(ring: seq<Handle>, hs: seq<Handle>, i: nat)
    requires i < |hs|
    ensures
      var r := Handed(ring, hs[..i]);
      Handed(ring, hs[..i + 1]) == if |r| < RING_SIZE - 1 then r + [hs[i]] else r
  {
  }

  /** The ring after a round has pulled from it. */
  function Rest(ring: seq<Handle>): seq<Handle> {
    if ring == [] then [] else ring[1..]
  }

  /** The queue after one coroutine was pulled from the switch ring. */
  function Prepared(queue: seq<Handle>, ring: seq<Handle>): seq<Handle> {
    if ring == [] || ring[0] == NULL_HANDLE then queue else queue + [ring[0]]
  }

  function Take(once: bool, queue: seq<Handle>): (n: nat)
    ensures n <= |queue| && n <= (if once then 1 else BATCH_MAX)
    ensures n == |queue| || n == if once then 1 else BATCH_MAX
  {
    if once then (if queue == [] then 0 else 1)
    else if |queue| < BATCH_MAX then |queue| else BATCH_MAX
  }

  /** The counter of operations in flight after a round; when nothing is in flight, or after the assertion, as it was. */
  function Counted(conflict: bool, inflight: nat, r: Round): nat {
    var n := inflight + r.submitted;
    if conflict then Max(n, r.done) - r.done
    else if n < r.done then n
    else n - r.done
  }

  function Outcome(conflict: bool, inflight: nat, r: Round): Status {
    if conflict then Reaped
    else if inflight + r.submitted == 0 then Idle
    else if inflight + r.submitted < r.done then Aborted
    else Reaped
  }

  function Min(a: nat, b: nat): nat {
    if a < b then a else b
  }

  /**
   The accounting: a round that reaps balances, but that with the conflict the counter is raised to what was reaped; a
   round with nothing in flight ends at once; the assertion fails if and only if more came than was in flight.
   */
  predicate Accounts(conflict: bool, inflight: nat, submitted: nat, done: nat, status: Status, inflight': nat) {
    && (status.Idle? <==> !conflict && inflight == 0 && submitted == 0)
    && (status.Aborted? <==> !conflict && 0 < inflight + submitted < done)
    && (inflight + submitted >= done && !status.Idle? ==> inflight' + done == inflight + submitted)
    && (inflight + submitted < done && conflict ==> inflight' == 0)
    && (status.Idle? || status.Aborted? ==> inflight' == inflight + submitted)
  }

  // ---------------------------------------------------------------- rounds

  /** From this queue, a round resumes, wakes and queues up what it should. */
  ghost predicate Serves(
    input: Input, once: bool, status: Status, q: seq<Handle>, resumed: seq<Handle>, woken: seq<Handle>, queue': seq<Handle>)
  {
    && resumed <= q && |resumed| == Min(|q|, if once then 1 else BATCH_MAX)
    && var rest, spawned := |q| - |resumed|, SpawnedByFirst(input.effects, |resumed|);
    && rest + spawned <= |queue'| && queue'[..rest] == q[|resumed|..]
    && JoinedInTurn(input.effects, |resumed|, queue'[rest..rest + spawned])
    && (if status.Idle? then woken == [] && |queue'| == rest + spawned
        else ServedInTurn(input.cqes, woken, queue'[rest + spawned..]))
  }

  lemma ServesOut(
    input: Input, once: bool, status: Status, q: seq<Handle>, n: nat, woken: seq<Handle>, first: seq<Handle>, last: seq<Handle>)
    requires n == Min(|q|, if once then 1 else BATCH_MAX) && JoinedInTurn(input.effects, n, first)
    requires if status.Idle? then woken == [] && last == [] else ServedInTurn(input.cqes, woken, last)
    ensures Serves(input, once, status, q, q[..n], woken, q[n..] + first + last)
  {
    var queue' := q[n..] + first + last;
    assert queue'[..|q| - n] == q[n..] && queue'[|q| - n..|q| - n + |first|] == first && queue'[|q| - n + |first|..] == last;
  }

  /**
   One round: the switch ring it finds, its queue after the preparation, the coroutines it resumes from there and those
   it resumes for CQEs, the queue it leaves, and the stop flag then.
   */
  datatype Turn = Turn(
    ring: seq<Handle>, queue: seq<Handle>, resumed: seq<Handle>, status: Status, woken: seq<Handle>, left: seq<Handle>, stopped: bool)

  /** A round pulls the ring's oldest handle to the end of its queue and resumes the front of the queue. */
  predicate Proper(t: Turn) {
    && (t.ring != [] && t.ring[0] != NULL_HANDLE ==> t.queue != [] && t.queue[|t.queue| - 1] == t.ring[0])
    && t.resumed == t.queue[..Take(false, t.queue)]
  }

  /** What a round leaves in the queue stands first in what the next one finds; what it leaves in the ring, alone. */
  predicate Follows(t: Turn, queue: seq<Handle>, ring: seq<Handle>) {
    t.queue[Take(false, t.queue)..] <= queue && ring == Rest(t.ring)
  }

  /** A round that meets these handovers comes after another. */
  predicate Next(t: Turn, t': Turn, input: Input) {
    t.queue[Take(false, t.queue)..] <= t'.queue && t'.ring == Handed(Rest(t.ring), input.switched)
  }

  predicate InPlace(ts: seq<Turn>, inputs: seq<Input>, k: int)
    requires 0 <= k < |ts| <= |inputs|
  {
    Proper(ts[k]) && (k > 0 ==> Next(ts[k - 1], ts[k], inputs[k]))
  }

  ghost predicate AllInPlace(ts: seq<Turn>, inputs: seq<Input>)
    requires |ts| <= |inputs|
  {
    forall k {:trigger InPlace(ts, inputs, k)} :: 0 <= k < |ts| ==> InPlace(ts, inputs, k)
  }

  /** Successive rounds that met these inputs; `queue` and `ring` are what the context holds after the last. */
  ghost predicate Traced(ts: seq<Turn>, inputs: seq<Input>, queue: seq<Handle>, ring: seq<Handle>) {
    && |ts| <= |inputs|
    && AllInPlace(ts, inputs)
    && (ts != [] ==> Follows(ts[|ts| - 1], queue, ring))
  }

  lemma TracedMore(ts: seq<Turn>, inputs: seq<Input>, queue: seq<Handle>, ring: seq<Handle>, t: Turn, queue': seq<Handle>, ring': seq<Handle>)
    requires Traced(ts, inputs, queue, ring) && Proper(t) && |ts| < |inputs|
    requires queue <= t.queue && t.ring == Handed(ring, inputs[|ts|].switched) && Follows(t, queue', ring')
    ensures Traced(ts + [t], inputs, queue', ring')
  {
    var us := ts + [t];
    forall k | 0 <= k < |us| ensures InPlace(us, inputs, k) {
      if k < |ts| {
        assert InPlace(ts, inputs, k);
      }
    }
  }

  /** A round that found the stop flag like this serves its queue and its CQEs. */
  ghost predicate Played(once: bool, t: Turn, input: Input, stopped: bool) {
    && Serves(input, once, t.status, t.queue, t.resumed, t.woken, t.left)
    && (t.stopped <==> stopped || OneStops(input.effects, |t.resumed|) || (!t.status.Idle? && WaiterStops(input.cqes)))
  }

  /** Round k goes on from what the round before left. */
  ghost predicate PlayedAt(ts: seq<Turn>, inputs: seq<Input>, queue: seq<Handle>, stopped: bool, k: int)
    requires 0 <= k < |ts| <= |inputs|
  {
    var (q, b) := if k == 0 then (queue, stopped) else (ts[k - 1].left, ts[k - 1].stopped);
    ts[k].queue == Prepared(q, ts[k].ring) && Played(false, ts[k], inputs[k], b)
  }

  /**
   Round after round, from this queue and stop flag to those: every coroutine that a round resumes, for the queue or for
   a CQE, and every one that these spawn, is where it should be.
   */
  ghost predicate AllPlayed(ts: seq<Turn>, inputs: seq<Input>, queue: seq<Handle>, stopped: bool, queue': seq<Handle>, stopped': bool) {
    && |ts| <= |inputs|
    && (forall k {:trigger PlayedAt(ts, inputs, queue, stopped, k)} :: 0 <= k < |ts| ==> PlayedAt(ts, inputs, queue, stopped, k))
    && (if ts == [] then queue' == queue && stopped' == stopped else queue' == ts[|ts| - 1].left && stopped' == ts[|ts| - 1].stopped)
  }

  lemma PlayedMore(ts: seq<Turn>, inputs: seq<Input>, queue: seq<Handle>, stopped: bool, queue': seq<Handle>, stopped': bool, t: Turn)
    requires AllPlayed(ts, inputs, queue, stopped, queue', stopped') && |ts| < |inputs|
    requires t.queue == Prepared(queue', t.ring) && Played(false, t, inputs[|ts|], stopped')
    ensures AllPlayed(ts + [t], inputs, queue, stopped, t.left, t.stopped)
  {
    var us := ts + [t];
    forall k | 0 <= k < |us| ensures PlayedAt(us, inputs, queue, stopped, k) {
      if k < |ts| {
        assert PlayedAt(ts, inputs, queue, stopped, k);
      }
    }
  }

  /** The handle at position 32 (m - k) + i of round k's queue is resumed in round m, as number i. */
  lemma {:induction false} ResumedInTurn(ts: seq<Turn>, inputs: seq<Input>, k: nat, m: nat, i: nat)
    requires k <= m < |ts| <= |inputs| && AllInPlace(ts, inputs)
    requires i < BATCH_MAX && BATCH_MAX * (m - k) + i < |ts[k].queue|
    ensures i < |ts[m].resumed| && ts[m].resumed[i] == ts[k].queue[BATCH_MAX * (m - k) + i]
    decreases m - k
  {
    if k < m {
      assert InPlace(ts, inputs, k + 1);
      ResumedInTurn(ts, inputs, k + 1, m, i);
    } else {
      assert InPlace(ts, inputs, k);
    }
  }

  /** The handle at position j of the ring that round k finds is pulled j rounds later. */
  lemma {:induction false} PulledInTurn(ts: seq<Turn>, k: nat, j: nat, inputs: seq<Input>, queue: seq<Handle>, ring: seq<Handle>)
    requires Traced(ts, inputs, queue, ring) && k + j < |ts| && j < |ts[k].ring|
    ensures ts[k + j].ring != [] && ts[k + j].ring[0] == ts[k].ring[j]
    decreases j
  {
    if j > 0 {
      assert InPlace(ts, inputs, k + 1);
      PulledInTurn(ts, k + 1, j - 1, inputs, queue, ring);
    }
  }

  /** The coroutine at position 32 r + i of round k's queue is resumed in round k + r, as number i. */
  predicate ResumedAt(ts: seq<Turn>, k: nat, r: nat, i: nat) {
    k + r < |ts| && i < BATCH_MAX && BATCH_MAX * r + i < |ts[k].queue| ==>
      i < |ts[k + r].resumed| && ts[k + r].resumed[i] == ts[k].queue[BATCH_MAX * r + i]
  }

  /** The coroutine at position j of the ring that round k finds is pulled in round k + j, to the end of its queue. */
  predicate PulledAt(ts: seq<Turn>, k: nat, j: nat) {
    k + j < |ts| && j < |ts[k].ring| && ts[k].ring[j] != NULL_HANDLE ==>
      ts[k + j].queue != [] && ts[k + j].queue[|ts[k + j].queue| - 1] == ts[k].ring[j]
  }

  /**
   Every coroutine is resumed in its turn, from wherever it stands in whichever round's queue; one that another context
   handed over is pulled in its turn, and resumed in its turn from there.
   */
  ghost predicate Fair(ts: seq<Turn>) {
    && (forall k, r, i :: ResumedAt(ts, k, r, i))
    && (forall k, j :: PulledAt(ts, k, j))
  }

  lemma TracedIsFair(ts: seq<Turn>, inputs: seq<Input>, queue: seq<Handle>, ring: seq<Handle>)
    requires Traced(ts, inputs, queue, ring)
    ensures Fair(ts)
  {
    forall k: nat, r: nat, i: nat ensures ResumedAt(ts, k, r, i) {
      if k + r < |ts| && i < BATCH_MAX && BATCH_MAX * r + i < |ts[k].queue| {
        ResumedInTurn(ts, inputs, k, k + r, i);
      }
    }
    forall k: nat, j: nat ensures PulledAt(ts, k, j) {
      if k + j < |ts| && j < |ts[k].ring| {
        PulledInTurn(ts, k, j, inputs, queue, ring);
        assert InPlace(ts, inputs, k + j);
      }
    }
  }

  /** A handover, from the ring to the thread: pulled j rounds after it was first found, resumed r rounds after that. */
  lemma HandedOverInTurn(ts: seq<Turn>, k: nat, j: nat, r: nat, i: nat)
    requires Fair(ts) && k + j + r < |ts| && j < |ts[k].ring| && ts[k].ring[j] != NULL_HANDLE
    requires i < BATCH_MAX && |ts[k + j].queue| - 1 == BATCH_MAX * r + i
    ensures i < |ts[k + j + r].resumed| && ts[k + j + r].resumed[i] == ts[k].ring[j]
  {
    assert PulledAt(ts, k, j) && ResumedAt(ts, k + j, r, i);
  }

  function CeilBatch(n: nat): nat {
    (n + BATCH_MAX - 1) / BATCH_MAX
  }

  /** Nothing arrives. */
  ghost predicate Quiet(input: Input) {
    && input.switched == []
    && (forall e :: e in input.effects ==> e.spawned == [])
    && (forall c :: c in input.cqes ==> c.effect.spawned == [])
  }

  lemma {:induction false} NoneSpawned(es: seq<Effect>, n: nat)
    requires forall e :: e in es ==> e.spawned == []
    ensures Together(es, n).spawned == []
  {
    if n > 0 {
      NoneSpawned(es, n - 1);
    }
  }

  lemma {:induction false} NoneSpawnedAfter(cqes: seq<Cqe>)
    requires forall c :: c in cqes ==> c.effect.spawned == []
    ensures Aftermath(cqes).spawned == []
  {
    if cqes != [] {
      NoneSpawnedAfter(cqes[..|cqes| - 1]);
    }
  }

  /** Nor does the kernel have anything to do. */
  ghost predicate Silent(input: Input) {
    Quiet(input) && input.submitted == 0 && input.cqes == []
  }

  ghost predicate AllSilent(inputs: seq<Input>) {
    forall i {:trigger inputs[i]} :: 0 <= i < |inputs| ==> Silent(inputs[i])
  }

  predicate NoneSwitched(inputs: seq<Input>) {
    forall i {:trigger inputs[i]} :: 0 <= i < |inputs| ==> inputs[i].switched == []
  }

  ghost predicate AllQuiet(inputs: seq<Input>) {
    forall i {:trigger inputs[i]} :: 0 <= i < |inputs| ==> Quiet(inputs[i])
  }

  lemma QuietBatch(input: Input, n: nat)
    requires Quiet(input)
    ensures Together(input.effects, n).spawned == [] && Aftermath(input.cqes).spawned == []
  {
    NoneSpawned(input.effects, n);
    NoneSpawnedAfter(input.cqes);
  }

  lemma OneBatchLess(n: nat)
    ensures n >= BATCH_MAX ==> CeilBatch(n - BATCH_MAX) + 1 == CeilBatch(n)
    ensures 0 < n <= BATCH_MAX ==> CeilBatch(n) == 1
    ensures n > 0 ==> CeilBatch(n) >= 1
    ensures CeilBatch(0) == 0
  {
  }

  /** How many coroutines a round pulls from this ring. */
  function Joins(ring: seq<Handle>): nat {
    if ring == [] || ring[0] == NULL_HANDLE then 0 else 1
  }

  function LessBatch(n: nat): nat {
    if n < BATCH_MAX then 0 else n - BATCH_MAX
  }

  /** A quiet round, by numbers: what is pulled makes one more, what is resumed up to 32 less. */
  predicate QuietRound(n: nat, ring: seq<Handle>, n': nat, ring': seq<Handle>) {
    ring' == Rest(ring) && n' == LessBatch(n + Joins(ring))
  }

  /** The round that these inputs make of its queue. */
  predicate IsTurn(once: bool, t: Turn, input: Input, stopped: bool) {
    var n := Take(once, t.queue);
    var e, f := Together(input.effects, n), if t.status.Idle? then Effect([], false) else Aftermath(input.cqes);
    && t.resumed == t.queue[..n] && t.woken == (if t.status.Idle? then [] else Woken(input.cqes))
    && t.left == t.queue[n..] + e.spawned + f.spawned && t.stopped == (stopped || e.stops || f.stops)
  }

  lemma TurnOfRound(t: Turn, input: Input, stopped: bool, queue: seq<Handle>, ring: seq<Handle>)
    requires IsTurn(false, t, input, stopped) && t.ring == Handed(ring, input.switched) && t.queue == Prepared(queue, t.ring)
    ensures Proper(t) && Follows(t, t.left, Rest(t.ring))
    ensures Quiet(input) ==> QuietRound(|queue|, ring, |t.left|, Rest(t.ring))
  {
    if Quiet(input) {
      QuietBatch(input, Take(false, t.queue));
    }
  }

  lemma TurnServes(once: bool, t: Turn, input: Input, stopped: bool)
    requires IsTurn(once, t, input, stopped)
    ensures Played(once, t, input, stopped)
  {
    var n := |t.resumed|;
    var e, f := Together(input.effects, n), if t.status.Idle? then Effect([], false) else Aftermath(input.cqes);
    BatchInTurn(input.effects, n);
    InTurn(input.cqes);
    ServesOut(input, once, t.status, t.queue, n, t.woken, e.spawned, f.spawned);
  }

  /** What r rounds leave of a ring that nothing is added to. */
  function Left(ring: seq<Handle>, r: nat): (left: seq<Handle>)
    ensures |left| == |ring| - Min(r, |ring|)
  {
    if r == 0 then ring else Rest(Left(ring, r - 1))
  }

  /** Its newest handles: the ring is short of one for each round. */
  lemma {:induction false} LeftIs(ring: seq<Handle>, r: nat)
    ensures Left(ring, r) == ring[Min(r, |ring|)..]
  {
    if r > 0 {
      LeftIs(ring, r - 1);
    }
  }

  /** How many coroutines r quiet rounds leave of n in the queue and those they pull. */
  function Remaining(n: nat, ring: seq<Handle>, r: nat): nat {
    if r == 0 then n
    else LessBatch(Remaining(n, ring, r - 1) + Joins(Left(ring, r - 1)))
  }

  lemma {:induction false} StaysDone(n: nat, ring: seq<Handle>, r: nat, r': nat)
    requires Remaining(n, ring, r) == 0 && r <= r'
    ensures Remaining(n, ring, r') == 0
    decreases r'
  {
    if r < r' {
      StaysDone(n, ring, r, r' - 1);
    }
  }

  /** How many coroutines r rounds pull from this ring, when nothing is added to it. */
  function Pulled(ring: seq<Handle>, r: nat): (p: nat)
    ensures p <= r && p <= |ring|
  {
    if r == 0 then 0 else Pulled(ring, r - 1) + Joins(Left(ring, r - 1))
  }

  /** In closed form: 32 for each round, as long as they last. */
  lemma {:induction false} RemainingIs(n: nat, ring: seq<Handle>, r: nat)
    ensures Remaining(n, ring, r) == if n + Pulled(ring, r) <= BATCH_MAX * r then 0 else n + Pulled(ring, r) - BATCH_MAX * r
  {
    if r > 0 {
      RemainingIs(n, ring, r - 1);
    }
  }

  /** How far a context that nothing reaches has come after `rounds` rounds: it was not done before the last. */
  predicate Draining(n0: nat, ring0: seq<Handle>, n: nat, ring: seq<Handle>, rounds: nat) {
    && ring == Left(ring0, rounds)
    && n == Remaining(n0, ring0, rounds)
    && (rounds > 0 ==> Remaining(n0, ring0, rounds - 1) > 0)
  }

  lemma DrainsOn(n0: nat, ring0: seq<Handle>, n: nat, ring: seq<Handle>, n': nat, ring': seq<Handle>, rounds: nat)
    requires Draining(n0, ring0, n, ring, rounds) && n > 0 && QuietRound(n, ring, n', ring')
    ensures Draining(n0, ring0, n', ring', rounds + 1)
  {
  }

  /** The queue, with what is pulled until then, lasts until the ring's last handle is pulled. */
  predicate Empties(n: nat, ring: seq<Handle>) {
    ring == [] || BATCH_MAX * (|ring| - 1) < n + Pulled(ring, |ring| - 1)
  }

  /**
   The rounds end as soon as nothing remains, if as many are given. The ring is short of one handle for each, so it is
   empty at the end if and only if the queue lasts that long.
   */
  predicate EndsExactly(n0: nat, ring0: seq<Handle>, rounds: nat, given: nat, exited: bool, left: seq<Handle>) {
    && left == Left(ring0, rounds)
    && (rounds > 0 ==> Remaining(n0, ring0, rounds - 1) > 0)
    && (exited <==> Remaining(n0, ring0, rounds) == 0)
    && (exited <==> Remaining(n0, ring0, given) == 0)
    && (exited ==> (left == [] <==> Empties(n0, ring0)))
  }

  /** At most as many rounds as it takes to resume what is in queue and ring, and exactly as many for an empty ring. */
  predicate EndsInTime(bound: nat, ring0: seq<Handle>, rounds: nat, given: nat, exited: bool) {
    rounds <= bound && (bound <= given ==> exited) && (exited && ring0 == [] ==> rounds == bound)
  }

  lemma DrainEnds(n0: nat, ring0: seq<Handle>, n: nat, ring: seq<Handle>, rounds: nat, given: nat, exited: bool)
    requires Draining(n0, ring0, n, ring, rounds) && (exited <==> n == 0) && rounds <= given && (exited || rounds == given)
    ensures EndsExactly(n0, ring0, rounds, given, exited, ring)
    ensures EndsInTime(CeilBatch(n0 + |ring0|), ring0, rounds, given, exited)
    ensures EndsInNumbers(n0, ring0, rounds, exited, ring)
  {
    Ends(n0, ring0, n, ring, rounds, given, exited);
    BoundIsEnough(n0, ring0, rounds, given);
    InNumbers(n0, ring0, rounds, given, exited, ring);
  }

  lemma Ends(n0: nat, ring0: seq<Handle>, n: nat, ring: seq<Handle>, rounds: nat, given: nat, exited: bool)
    requires Draining(n0, ring0, n, ring, rounds) && (exited <==> n == 0) && rounds <= given && (exited || rounds == given)
    ensures EndsExactly(n0, ring0, rounds, given, exited, ring)
  {
    if exited {
      StaysDone(n0, ring0, rounds, given);
      if ring0 != [] {
        LastPull(n0, ring0, rounds);
      }
    }
  }

  lemma LastPull(n: nat, ring: seq<Handle>, rounds: nat)
    requires ring != [] && Remaining(n, ring, rounds) == 0 && (rounds > 0 ==> Remaining(n, ring, rounds - 1) > 0)
    ensures rounds < |ring| <==> !Empties(n, ring)
  {
    RemainingIs(n, ring, |ring| - 1);
    if rounds < |ring| {
      StaysDone(n, ring, rounds, |ring| - 1);
    } else if Remaining(n, ring, |ring| - 1) == 0 {
      StaysDone(n, ring, |ring| - 1, rounds - 1);
    }
  }

  lemma BoundIsEnough(n: nat, ring: seq<Handle>, rounds: nat, given: nat)
    requires rounds > 0 ==> Remaining(n, ring, rounds - 1) > 0
    ensures rounds <= CeilBatch(n + |ring|)
    ensures CeilBatch(n + |ring|) <= given ==> Remaining(n, ring, given) == 0
    ensures ring == [] && Remaining(n, ring, rounds) == 0 ==> rounds == CeilBatch(n)
  {
    RemainingIs(n, ring, rounds);
    RemainingIs(n, ring, given);
    if rounds > 0 {
      RemainingIs(n, ring, rounds - 1);
    }
  }

  // ---------------------------------------------------------------- in closed form

  /** How many rounds n coroutines last when each round pulls one more. */
  function CeilPull(n: nat): nat {
    (n + BATCH_MAX - 2) / (BATCH_MAX - 1)
  }

  /** How many rounds it takes, with n coroutines in the queue and m in the ring. */
  function RoundsFor(n: nat, m: nat): nat {
    if CeilPull(n) <= m then CeilPull(n) else CeilBatch(n + m)
  }

  /** How many of the m coroutines in the ring are left there. */
  function LeftIn(n: nat, m: nat): nat {
    if CeilPull(n) <= m then m - CeilPull(n) else 0
  }

  lemma {:induction false} NoNulls(ring: seq<Handle>, r: nat)
    requires NULL_HANDLE !in ring
    ensures Pulled(ring, r) == Min(r, |ring|) && NULL_HANDLE !in Left(ring, r)
  {
    if r > 0 {
      NoNulls(ring, r - 1);
    }
  }

  lemma LeastIs(n: nat, ring: seq<Handle>, rounds: nat, r: nat)
    requires Remaining(n, ring, rounds) == 0 && (rounds > 0 ==> Remaining(n, ring, rounds - 1) > 0)
    requires Remaining(n, ring, r) == 0 && (r > 0 ==> Remaining(n, ring, r - 1) > 0)
    ensures rounds == r
  {
    if rounds < r {
      StaysDone(n, ring, rounds, r - 1);
    } else if r < rounds {
      StaysDone(n, ring, r, rounds - 1);
    }
  }

  /** The closed form is the least number of rounds after which nothing remains. */
  lemma RoundsAreLeast(n: nat, ring: seq<Handle>)
    requires NULL_HANDLE !in ring
    ensures
      var r := RoundsFor(n, |ring|);
      Remaining(n, ring, r) == 0 && (r > 0 ==> Remaining(n, ring, r - 1) > 0)
  {
    var r := RoundsFor(n, |ring|);
    NoNulls(ring, r);
    RemainingIs(n, ring, r);
    if r > 0 {
      NoNulls(ring, r - 1);
      RemainingIs(n, ring, r - 1);
    }
  }

  /**
   In numbers, when every handle in the ring is a coroutine's: how many rounds there were when they ended, how much of
   the ring is left, and when nothing is.
   */
  predicate EndsInNumbers(n: nat, ring: seq<Handle>, rounds: nat, exited: bool, left: seq<Handle>) {
    exited && NULL_HANDLE !in ring ==>
      && rounds == RoundsFor(n, |ring|) && |left| == LeftIn(n, |ring|)
      && (left == [] <==> |ring| <= (n + BATCH_MAX - 2) / (BATCH_MAX - 1))
  }

  lemma InNumbers(n: nat, ring: seq<Handle>, rounds: nat, given: nat, exited: bool, left: seq<Handle>)
    requires EndsExactly(n, ring, rounds, given, exited, left)
    ensures EndsInNumbers(n, ring, rounds, exited, left)
  {
    if exited && NULL_HANDLE !in ring {
      RoundsAreLeast(n, ring);
      LeastIs(n, ring, rounds, RoundsFor(n, |ring|));
    }
  }

  /** Rounds done, of those given, and what the context holds after them. */
  datatype Progress = Progress(inputs: seq<Input>, turns: seq<Turn>, queue: seq<Handle>, ring: seq<Handle>, stopped: bool)

  /** The rounds lead from where the loop started to where it is now. Without handovers each takes a handle off the ring. */
  ghost predicate Led(start: Progress, now: Progress) {
    && Traced(now.turns, now.inputs, now.queue, now.ring)
    && AllPlayed(now.turns, now.inputs, start.queue, start.stopped, now.queue, now.stopped)
    && (now.turns != [] ==> Begins(now.turns[0], start.queue, start.ring, now.inputs))
    && (now.turns == [] ==> now == start)
    && (NoneSwitched(now.inputs) ==> now.ring == Left(start.ring, |now.turns|))
  }

  /** And after a stop, with no more arrivals, they drain the context. */
  ghost predicate Sound(start: Progress, now: Progress) {
    && Led(start, now)
    && (start.stopped && AllQuiet(now.inputs) ==>
          now.stopped && Draining(|start.queue|, start.ring, |now.queue|, now.ring, |now.turns|))
  }

  /** One more round leads to the next. */
  ghost predicate Leads(now: Progress, turn: Turn, next: Progress) {
    && |now.turns| < |now.inputs| && next.inputs == now.inputs && next.turns == now.turns + [turn]
    && Played(false, turn, now.inputs[|now.turns|], now.stopped) && next.queue == turn.left && next.stopped == turn.stopped
    && Proper(turn) && Follows(turn, next.queue, next.ring)
    && turn.ring == Handed(now.ring, now.inputs[|now.turns|].switched) && turn.queue == Prepared(now.queue, turn.ring)
    && (now.stopped ==> next.stopped)
  }

  lemma LedOn(start: Progress, now: Progress, turn: Turn, next: Progress)
    requires Led(start, now) && Leads(now, turn, next)
    ensures Led(start, next)
  {
    TracedMore(now.turns, now.inputs, now.queue, now.ring, turn, next.queue, next.ring);
    PlayedMore(now.turns, now.inputs, start.queue, start.stopped, now.queue, now.stopped, turn);
    if NoneSwitched(now.inputs) {
      assert Handed(now.ring, []) == now.ring;
    }
  }

  lemma SoundStarts(start: Progress)
    requires start.turns == []
    ensures Sound(start, start)
  {
  }

  lemma SoundMore(start: Progress, now: Progress, turn: Turn, next: Progress)
    requires Sound(start, now) && Leads(now, turn, next) && !(now.stopped && now.queue == [])
    requires Quiet(now.inputs[|now.turns|]) ==> QuietRound(|now.queue|, now.ring, |next.queue|, next.ring)
    ensures Sound(start, next)
  {
    LedOn(start, now, turn, next);
    if start.stopped && AllQuiet(now.inputs) {
      DrainsOn(|start.queue|, start.ring, |now.queue|, now.ring, |next.queue|, next.ring, |now.turns|);
    }
  }

  lemma SoundEnds(start: Progress, now: Progress, exited: bool)
    requires Sound(start, now) && start.inputs == now.inputs
    requires (exited <==> now.stopped && now.queue == []) && (exited || |now.turns| == |now.inputs|)
    ensures Fair(now.turns)
    ensures start.stopped && AllQuiet(now.inputs) ==>
      && EndsInTime(CeilBatch(|start.queue| + |start.ring|), start.ring, |now.turns|, |now.inputs|, exited)
      && EndsExactly(|start.queue|, start.ring, |now.turns|, |now.inputs|, exited, now.ring)
      && EndsInNumbers(|start.queue|, start.ring, |now.turns|, exited, now.ring)
  {
    TracedIsFair(now.turns, now.inputs, now.queue, now.ring);
    if start.stopped && AllQuiet(now.inputs) {
      DrainEnds(|start.queue|, start.ring, |now.queue|, now.ring, |now.turns|, |now.inputs|, exited);
    }
  }

  /** The rounds until drained: a context that nothing reaches drains. */
  ghost predicate Sinking(start: Progress, now: Progress, idle: bool) {
    && Led(start, now)
    && (idle ==> Draining(|start.queue|, start.ring, |now.queue|, now.ring, |now.turns|))
  }

  lemma SinkingStarts(start: Progress, idle: bool)
    requires start.turns == []
    ensures Sinking(start, start, idle)
  {
  }

  lemma SinkingOn(start: Progress, now: Progress, turn: Turn, next: Progress, idle: bool)
    requires Sinking(start, now, idle) && Leads(now, turn, next)
    requires idle ==> now.queue != [] && QuietRound(|now.queue|, now.ring, |next.queue|, next.ring)
    ensures Sinking(start, next, idle)
  {
    LedOn(start, now, turn, next);
    if idle {
      DrainsOn(|start.queue|, start.ring, |now.queue|, now.ring, |next.queue|, next.ring, |now.turns|);
    }
  }

  lemma SinkingEnds(start: Progress, now: Progress, idle: bool, exited: bool)
    requires Sinking(start, now, idle) && |now.turns| <= |now.inputs| && (exited || |now.turns| == |now.inputs|)
    requires idle ==> (exited <==> now.queue == [])
    ensures Fair(now.turns)
    ensures idle ==>
      && EndsExactly(|start.queue|, start.ring, |now.turns|, |now.inputs|, exited, now.ring)
      && EndsInNumbers(|start.queue|, start.ring, |now.turns|, exited, now.ring)
  {
    TracedIsFair(now.turns, now.inputs, now.queue, now.ring);
    if idle {
      DrainEnds(|start.queue|, start.ring, |now.queue|, now.ring, |now.turns|, |now.inputs|, exited);
    }
  }

  /** The log is what the rounds resumed. */
  ghost predicate Logged(ts: seq<Turn>, log: seq<seq<Handle>>) {
    |log| == |ts| && forall k {:trigger log[k]} :: 0 <= k < |log| ==> log[k] == ts[k].resumed
  }

  /** The first round finds what was there, and what was handed over before it. */
  predicate Begins(t: Turn, queue: seq<Handle>, ring: seq<Handle>, inputs: seq<Input>) {
    inputs != [] && t.ring == Handed(ring, inputs[0].switched) && t.queue == Prepared(queue, t.ring)
  }

  /** The ring takes handovers, in order, until it is full. */
  predicate Accepts(ring: seq<Handle>, hs: seq<Handle>, ring': seq<Handle>) {
    && ring <= ring' <= ring + hs
    && |ring'| == if |ring| >= RING_SIZE - 1 then |ring| else Min(RING_SIZE - 1, |ring| + |hs|)
  }

  /** The oldest handle goes from the ring to the end of the queue; a null handle is dropped. */
  predicate Pulls(queue: seq<Handle>, ring: seq<Handle>, queue': seq<Handle>, ring': seq<Handle>) {
    if ring == [] then queue' == queue && ring' == []
    else
      && ring == [ring[0]] + ring'
      && queue' == if ring[0] == NULL_HANDLE then queue else queue + [ring[0]]
  }

  // ---------------------------------------------------------------- the context

  class Context {
    const conflict: bool
    const ring: F.Fifo<Handle>
    var operations: seq<Handle>
    var inflight: nat
    var stopped: bool
    ghost var rounds: seq<Round>

    /** The counter is what the rounds so far make it. */
    ghost predicate Valid()
      reads this, ring
    {
      && ring.Valid() && ring.SIZE == RING_SIZE
      && (conflict ==> inflight == Clamped(rounds))
      && (!conflict && PlainRounds(rounds).Counter? ==> inflight == PlainRounds(rounds).n)
    }

    ghost function Switched(): seq<Handle>
      reads this, ring, ring.buffer
      requires Valid()
    {
      ring.Contents()
    }

    constructor (conflict: bool)
      ensures Valid() && operations == [] && inflight == 0 && !stopped && Switched() == [] && rounds == []
      ensures this.conflict == conflict && fresh(ring) && fresh(ring.buffer)
    {
      PowerAccepted(6);
      assert Pow2(6) == RING_SIZE;
      this.conflict := conflict;
      ring := new F.Fifo<Handle>(RING_SIZE);
      operations, inflight, stopped, rounds := [], 0, false, [];
    }

    method Spawn(h: Handle)
      requires Valid()
      modifies this`operations
      ensures Valid() && operations == old(operations) + [h]
    {
      operations := operations + [h];
    }

    method PushToSwitch(h: Handle) returns (ok: bool)
      requires Valid()
      modifies ring`input, ring.buffer
      ensures Valid()
      ensures ok <==> |old(Switched())| < RING_SIZE - 1
      ensures Switched() == if ok then old(Switched()) + [h] else old(Switched())
    {
      ok := ring.Push(h);
    }

    /** Other contexts hand over coroutines, one after the other; the ring takes them until it is full. */
    method HandOver(hs: seq<Handle>) returns (accepted: nat)
      requires Valid()
      modifies ring`input, ring.buffer
      ensures Valid()
      ensures Switched() == Handed(old(Switched()), hs)
      ensures accepted == if |old(Switched())| >= RING_SIZE - 1 then 0 else Min(|hs|, RING_SIZE - 1 - |old(Switched())|)
      ensures Switched() == old(Switched()) + hs[..accepted]
    {
      ghost var ring0 := Switched();
      accepted := 0;
      for i := 0 to |hs|
        invariant Valid()
        invariant Switched() == Handed(ring0, hs[..i]) && |Switched()| == |ring0| + accepted
      {
        HandedOneMore(ring0, hs, i);
        var ok := PushToSwitch(hs[i]);
        accepted := if ok then accepted + 1 else accepted;
      }
      assert hs[..|hs|] == hs;
    }

    predicate Running()
      reads this
    {
      !(stopped && operations == [])
    }

    method Stop()
      requires Valid()
      modifies this`stopped
      ensures Valid() && stopped
    {
      stopped := true;
    }

    /** Neither this nor `Running` looks at the switch ring. */
    predicate Drained()
      reads this
    {
      operations == [] && inflight == 0
    }

    /** Pulls at most one coroutine from the switch ring. */
    method Prepare()
      requires Valid()
      modifies this`operations, ring`output
      ensures Valid()
      ensures operations == Prepared(old(operations), old(Switched()))
      ensures Pulls(old(operations), old(Switched()), operations, Switched())
    {
      var h := ring.Pop(NULL_HANDLE);
      if h != NULL_HANDLE {
        operations := operations + [h];
      }
    }

    /** What others have handed over by now, and the pull. */
    method Receive(hs: seq<Handle>) returns (ghost found: seq<Handle>)
      requires Valid()
      modifies this`operations, ring, ring.buffer
      ensures Valid() && found == Handed(old(Switched()), hs) && Accepts(old(Switched()), hs, found)
      ensures operations == Prepared(old(operations), found) && Switched() == Rest(found)
      ensures Pulls(old(operations), found, operations, Switched())
    {
      var accepted := HandOver(hs);
      found := Switched();
      Prepare();
    }

    /** A resumed coroutine runs until it suspends. */
    method Resume(e: Effect)
      modifies this`operations, this`stopped
      ensures operations == old(operations) + e.spawned && stopped == (old(stopped) || e.stops)
    {
      operations := operations + e.spawned;
      if e.stops {
        stopped := true;
      }
    }

    /** Resumes the coroutine at the front, the i-th of a queue that is being resumed. */
    method ResumeFront(i: nat, effects: seq<Effect>, ghost queue: seq<Handle>) returns (op: Handle)
      requires i < |queue| && operations == queue[i..] + Together(effects, i).spawned
      modifies this`operations, this`stopped
      ensures op == queue[i] && operations == queue[i + 1..] + Together(effects, i + 1).spawned
      ensures stopped == (old(stopped) || EffectAt(effects, i).stops)
    {
      op := operations[0];
      operations := operations[1..];
      Resume(EffectAt(effects, i));
    }

    /** Resumes the first `some` queued coroutines; those they spawn queue up behind. */
    method ResumeSome(some: nat, effects: seq<Effect>) returns (resumed: seq<Handle>)
      requires some <= |operations|
      modifies this`operations, this`stopped
      ensures resumed == old(operations)[..some]
      ensures operations == old(operations)[some..] + Together(effects, some).spawned
      ensures stopped == (old(stopped) || Together(effects, some).stops)
    {
      resumed := [];
      ghost var queue := operations;
      for i := 0 to some
        invariant resumed == queue[..i]
        invariant operations == queue[i..] + Together(effects, i).spawned
        invariant stopped == (old(stopped) || Together(effects, i).stops)
      {
        var op := ResumeFront(i, effects, queue);
        resumed := resumed + [op];
      }
    }

    /** Resumes the coroutines of the CQEs, except those of cancelled requests. */
    method ResumeWaiters(cqes: seq<Cqe>) returns (woken: seq<Handle>)
      modifies this`operations, this`stopped
      ensures woken == Woken(cqes)
      ensures operations == old(operations) + Aftermath(cqes).spawned
      ensures stopped == (old(stopped) || Aftermath(cqes).stops)
    {
      woken := [];
      for i := 0 to |cqes|
        invariant woken == Woken(cqes[..i])
        invariant operations == old(operations) + Aftermath(cqes[..i]).spawned
        invariant stopped == (old(stopped) || Aftermath(cqes[..i]).stops)
      {
        assert cqes[..i + 1][..i] == cqes[..i];
        if cqes[i].res != -ECANCELED {
          woken := woken + [cqes[i].waiter];
          Resume(cqes[i].effect);
        }
      }
      assert cqes[..|cqes|] == cqes;
    }

    /** `inflight_conflict_workaround`. */
    method Workaround(done: nat)
      modifies this`inflight
      ensures inflight == if conflict then Max(old(inflight), done) else old(inflight)
    {
      if conflict && inflight < done {
        inflight := done;
      }
    }

    /** Submits, reaps and accounts. */
    method SubmitAndReap(input: Input) returns (status: Status, woken: seq<Handle>)
      requires Valid()
      modifies this`operations, this`inflight, this`stopped, this`rounds
      ensures Valid()
      ensures rounds == old(rounds) + [Round(input.submitted, |input.cqes|)]
      ensures status == Outcome(conflict, old(inflight), Round(input.submitted, |input.cqes|))
      ensures inflight == Counted(conflict, old(inflight), Round(input.submitted, |input.cqes|))
      ensures Accounts(conflict, old(inflight), input.submitted, |input.cqes|, status, inflight)
      ensures status.Idle? ==> woken == [] && operations == old(operations) && stopped == old(stopped)
      ensures !status.Idle? ==> woken == Woken(input.cqes)
      ensures !status.Idle? ==> operations == old(operations) + Aftermath(input.cqes).spawned
      ensures !status.Idle? ==> ServedInTurn(input.cqes, woken, operations[|old(operations)|..])
      ensures !status.Idle? ==> stopped == (old(stopped) || Aftermath(input.cqes).stops)
      ensures !status.Idle? ==> (stopped <==> old(stopped) || WaiterStops(input.cqes))
    {
      InTurn(input.cqes);
      woken := [];
      rounds := rounds + [Round(input.submitted, |input.cqes|)];
      assert rounds[..|rounds| - 1] == old(rounds);
      inflight := inflight + input.submitted;
      if inflight == 0 && !conflict {
        return Idle, woken;
      }
      woken := ResumeWaiters(input.cqes);
      Workaround(|input.cqes|);
      if inflight < |input.cqes| {
        return Aborted, woken;
      }
      inflight := inflight - |input.cqes|;
      status := Reaped;
    }

    /**
     One round. What other contexts hand over waits in the switch ring, from which one coroutine is pulled. The front
     of the queue is resumed, in order and never more than there is; what the resumed coroutines spawn comes behind
     the rest, what the reaped ones spawn behind that.
     */
    method RunOnce(once: bool, input: Input)
      returns (status: Status, resumed: seq<Handle>, woken: seq<Handle>, ghost turn: Turn)
      requires Valid()
      modifies this`operations, this`inflight, this`stopped, this`rounds, ring, ring.buffer
      ensures Valid()
      ensures rounds == old(rounds) + [Round(input.submitted, |input.cqes|)]
      ensures status == Outcome(conflict, old(inflight), Round(input.submitted, |input.cqes|))
      ensures inflight == Counted(conflict, old(inflight), Round(input.submitted, |input.cqes|))
      ensures Accounts(conflict, old(inflight), input.submitted, |input.cqes|, status, inflight)
      ensures turn == Turn(turn.ring, turn.queue, resumed, status, woken, operations, stopped)
      ensures turn.ring == Handed(old(Switched()), input.switched) && Accepts(old(Switched()), input.switched, turn.ring)
      ensures turn.queue == Prepared(old(operations), turn.ring) && Switched() == Rest(turn.ring)
      ensures Pulls(old(operations), turn.ring, turn.queue, Switched())
      ensures IsTurn(once, turn, input, old(stopped)) && Played(once, turn, input, old(stopped))
    {
      ghost var found := Receive(input.switched);
      ghost var queue := operations;
      var some := Take(once, operations);
      resumed := ResumeSome(some, input.effects);
      status, woken := SubmitAndReap(input);
      turn := Turn(found, queue, resumed, status, woken, operations, stopped);
      assert IsTurn(once, turn, input, old(stopped));
      TurnServes(once, turn, input, old(stopped));
    }

    /** One whole batch, seen from the queue and the switch ring. */
    method RunBatch(input: Input) returns (resumed: seq<Handle>, ghost turn: Turn)
      requires Valid()
      modifies this`operations, this`inflight, this`stopped, this`rounds, ring, ring.buffer
      ensures Valid()
      ensures Proper(turn) && resumed == turn.resumed && Follows(turn, operations, Switched())
      ensures turn.ring == Handed(old(Switched()), input.switched) && turn.queue == Prepared(old(operations), turn.ring)
      ensures Played(false, turn, input, old(stopped)) && operations == turn.left && stopped == turn.stopped
      ensures Quiet(input) ==> QuietRound(|old(operations)|, old(Switched()), |operations|, Switched())
      ensures turn.status == Outcome(conflict, old(inflight), Round(input.submitted, |input.cqes|))
      ensures inflight == Counted(conflict, old(inflight), Round(input.submitted, |input.cqes|))
    {
      var status, woken;
      status, resumed, woken, turn := RunOnce(false, input);
      TurnOfRound(turn, input, old(stopped), old(operations), old(Switched()));
    }

    /** A batch that nothing arrives in, by numbers. */
    method RunQuietly(input: Input)
      requires Valid() && Quiet(input)
      modifies this`operations, this`inflight, this`stopped, this`rounds, ring, ring.buffer
      ensures Valid() && (old(stopped) ==> stopped)
      ensures QuietRound(|old(operations)|, old(Switched()), |operations|, Switched())
      ensures inflight == Counted(conflict, old(inflight), Round(input.submitted, |input.cqes|))
    {
      var resumed;
      ghost var turn;
      resumed, turn := RunBatch(input);
    }

    /** What the context holds is where the rounds have come to. */
    ghost predicate At(now: Progress)
      reads this, ring, ring.buffer
    {
      Valid() && now.queue == operations && now.ring == Switched() && now.stopped == stopped
    }

    /** How far the loop has come since `start`. */
    ghost predicate Rounds(start: Progress, now: Progress)
      reads this, ring, ring.buffer
    {
      At(now) && Sound(start, now)
    }

    /** One more round of the inputs, from wherever the context is. */
    method Advance(inputs: seq<Input>, log: seq<seq<Handle>>, ghost now: Progress)
      returns (log': seq<seq<Handle>>, ghost turn: Turn, ghost next: Progress)
      requires At(now) && now.inputs == inputs && Logged(now.turns, log) && |log| < |inputs|
      modifies this`operations, this`inflight, this`stopped, this`rounds, ring, ring.buffer
      ensures At(next) && Leads(now, turn, next) && Logged(next.turns, log') && |log'| == |log| + 1
      ensures Quiet(inputs[|log|]) ==> QuietRound(|now.queue|, now.ring, |next.queue|, next.ring)
      ensures
        var input := inputs[|log|];
        inflight == Counted(conflict, old(inflight), Round(input.submitted, |input.cqes|))
    {
      var resumed;
      resumed, turn := RunBatch(inputs[|log|]);
      log' := log + [resumed];
      next := now.(turns := now.turns + [turn], queue := operations, ring := Switched(), stopped := stopped);
    }

    /** One more round of `run`. */
    method OneMoreRound(inputs: seq<Input>, log: seq<seq<Handle>>, ghost start: Progress, ghost now: Progress)
      returns (log': seq<seq<Handle>>, ghost next: Progress)
      requires Rounds(start, now) && now.inputs == inputs && Logged(now.turns, log) && Running() && |log| < |inputs|
      modifies this`operations, this`inflight, this`stopped, this`rounds, ring, ring.buffer
      ensures Rounds(start, next) && next.inputs == inputs && Logged(next.turns, log') && |log'| == |log| + 1
    {
      ghost var turn;
      log', turn, next := Advance(inputs, log, now);
      SoundMore(start, now, turn, next);
    }

    /** Round after round, while running and while inputs last. */
    method Repeat(inputs: seq<Input>, ghost start: Progress) returns (log: seq<seq<Handle>>, exited: bool, ghost now: Progress)
      requires Rounds(start, start) && start.inputs == inputs && start.turns == []
      modifies this`operations, this`inflight, this`stopped, this`rounds, ring, ring.buffer
      ensures Rounds(start, now) && now.inputs == inputs && Logged(now.turns, log)
      ensures (exited <==> now.stopped && now.queue == []) && (exited || |log| == |inputs|)
    {
      log, now := [], start;
      while Running() && |log| < |inputs|
        invariant Rounds(start, now) && now.inputs == inputs && Logged(now.turns, log)
        decreases |inputs| - |log|
      {
        log, now := OneMoreRound(inputs, log, start, now);
      }
      exited := !Running();
    }

    /**
     `run`'s loop over rounds, while other contexts hand over coroutines at any time. Every coroutine is resumed in its
     turn, those handed over from when they are pulled. The loop ends only with nothing pending. After a stop, when
     nothing arrives any more, it ends as soon as its rounds are enough for the queue and what they pull: with n queued
     and m coroutines in the ring, it leaves max(0, m - ceil(n / 31)) of these there.
     */
    method Loop(inputs: seq<Input>) returns (log: seq<seq<Handle>>, exited: bool, ghost turns: seq<Turn>)
      requires Valid()
      modifies this`operations, this`inflight, this`stopped, this`rounds, ring, ring.buffer
      ensures Valid()
      ensures exited <==> stopped && operations == []
      ensures |log| <= |inputs| && (!exited ==> |log| == |inputs|)
      ensures Logged(turns, log) && Traced(turns, inputs, operations, Switched()) && Fair(turns)
      ensures AllPlayed(turns, inputs, old(operations), old(stopped), operations, stopped)
      ensures turns != [] ==> Begins(turns[0], old(operations), old(Switched()), inputs)
      ensures log == [] ==> operations == old(operations) && stopped == old(stopped)
      ensures NoneSwitched(inputs) ==> Switched() == Left(old(Switched()), |log|)
      ensures old(stopped) && AllQuiet(inputs) ==>
        && EndsInTime(CeilBatch(|old(operations)| + |old(Switched())|), old(Switched()), |log|, |inputs|, exited)
        && EndsExactly(|old(operations)|, old(Switched()), |log|, |inputs|, exited, Switched())
      ensures old(stopped) && AllQuiet(inputs) ==>
        EndsInNumbers(|old(operations)|, old(Switched()), |log|, exited, Switched())
    {
      ghost var start := Progress(inputs, [], operations, Switched(), stopped);
      ghost var now;
      SoundStarts(start);
      log, exited, now := Repeat(inputs, start);
      turns := now.turns;
      SoundEnds(start, now, exited);
    }

    /** `run` clears the stop flag first. */
    method Run(inputs: seq<Input>) returns (log: seq<seq<Handle>>, exited: bool, ghost turns: seq<Turn>)
      requires Valid()
      modifies this`operations, this`inflight, this`stopped, this`rounds, ring, ring.buffer
      ensures Valid()
      ensures exited <==> stopped && operations == []
      ensures !exited ==> |log| == |inputs|
      ensures Logged(turns, log) && Traced(turns, inputs, operations, Switched()) && Fair(turns)
      ensures AllPlayed(turns, inputs, old(operations), false, operations, stopped)
      ensures inputs != [] ==> turns != [] && Begins(turns[0], old(operations), old(Switched()), inputs)
      ensures NoneSwitched(inputs) ==> Switched() == Left(old(Switched()), |log|)
    {
      stopped := false;
      log, exited, turns := Loop(inputs);
    }

    ghost predicate Drains(start: Progress, now: Progress, idle: bool)
      reads this, ring, ring.buffer
    {
      At(now) && Sinking(start, now, idle) && (idle ==> inflight == 0)
    }

    /** One more round until drained. */
    method OneMoreDrain(inputs: seq<Input>, log: seq<seq<Handle>>, ghost start: Progress, ghost now: Progress, ghost idle: bool)
      returns (log': seq<seq<Handle>>, ghost next: Progress)
      requires Drains(start, now, idle) && now.inputs == inputs && Logged(now.turns, log) && !Drained() && |log| < |inputs|
      requires idle ==> AllSilent(inputs)
      modifies this`operations, this`inflight, this`stopped, this`rounds, ring, ring.buffer
      ensures Drains(start, next, idle) && next.inputs == inputs && Logged(next.turns, log') && |log'| == |log| + 1
    {
      ghost var turn;
      log', turn, next := Advance(inputs, log, now);
      SinkingOn(start, now, turn, next, idle);
    }

    /** Round after round, while not drained and while inputs last. */
    method RepeatUntilDrained(inputs: seq<Input>, ghost start: Progress, ghost idle: bool)
      returns (log: seq<seq<Handle>>, exited: bool, ghost now: Progress)
      requires Drains(start, start, idle) && start.inputs == inputs && start.turns == []
      requires idle ==> AllSilent(inputs)
      modifies this`operations, this`inflight, this`stopped, this`rounds, ring, ring.buffer
      ensures Drains(start, now, idle) && now.inputs == inputs && Logged(now.turns, log)
      ensures (exited <==> Drained()) && |log| <= |inputs| && (exited || |log| == |inputs|)
    {
      log, now := [], start;
      while !Drained() && |log| < |inputs|
        invariant Drains(start, now, idle) && now.inputs == inputs && Logged(now.turns, log) && |log| <= |inputs|
        decreases |inputs| - |log|
      {
        log, now := OneMoreDrain(inputs, log, start, now, idle);
      }
      exited := Drained();
    }

    /**
     The way to complete all tasks that stop's documentation recommends: round after round until drained. When no more
     handovers arrive, the ring is short of one handle for each round. With nothing in flight, it ends empty under the
     same condition as after a stop.
     */
    method RunUntilDrained(inputs: seq<Input>) returns (log: seq<seq<Handle>>, exited: bool, ghost turns: seq<Turn>)
      requires Valid()
      modifies this`operations, this`inflight, this`stopped, this`rounds, ring, ring.buffer
      ensures Valid()
      ensures exited <==> Drained()
      ensures |log| <= |inputs| && (!exited ==> |log| == |inputs|)
      ensures Logged(turns, log) && Traced(turns, inputs, operations, Switched()) && Fair(turns)
      ensures AllPlayed(turns, inputs, old(operations), old(stopped), operations, stopped)
      ensures turns != [] ==> Begins(turns[0], old(operations), old(Switched()), inputs)
      ensures NoneSwitched(inputs) ==> Switched() == Left(old(Switched()), |log|)
      ensures old(inflight) == 0 && AllSilent(inputs) ==>
        EndsExactly(|old(operations)|, old(Switched()), |log|, |inputs|, exited, Switched())
      ensures old(inflight) == 0 && AllSilent(inputs) ==>
        EndsInNumbers(|old(operations)|, old(Switched()), |log|, exited, Switched())
    {
      ghost var start := Progress(inputs, [], operations, Switched(), stopped);
      ghost var idle, now := inflight == 0 && AllSilent(inputs), start;
      SinkingStarts(start, idle);
      log, exited, now := RepeatUntilDrained(inputs, start, idle);
      turns := now.turns;
      SinkingEnds(start, now, idle, exited);
    }
  }

  /** A stopped and drained context that holds a coroutine in its ring: two were handed over, one round pulled one. */
  method HandoverLeftBehind() returns (c: Context)
    ensures fresh(c) && c.Valid() && !c.Running() && c.Drained() && c.Switched() == [6]
  {
    c := new Context(true);
    var accepted := c.HandOver([5, 6]);
    c.Stop();
    c.RunQuietly(Input([], [], 0, []));
  }
}
