/**
 Where every step takes every coroutine, and what follows over runs: whoever awaits a Task is resumed by its end and by
 nothing else, whoever awaits an operation by its CQE, and whoever is queued when its turn has come.
 */
module CoroutineRuns {
  import opened Lists
  import opened CoroutineOwnership
  import opened CoroutineTheorems

  /** Where a coroutine that is at p goes. */
  function Goes(s: State, act: Act, h: Handle, p: Place): Place
    requires Enabled(s, act)
  {
    match act
    case Make(x) => if x == h then InTask else p
    case Drop(i) => if p == InTask && s.tasks[i] == h then Gone else p
    case CoSpawn(i, c) => if p == InTask && s.tasks[i] == h then InQueue(c) else p
    case AwaitTask(c, i) =>
      if p == Running(c) then AsCaller(s.tasks[i]) else if p == InTask && s.tasks[i] == h then Running(c) else p
    case Finish(c) => if p == Running(c) then Gone else if p == AsCaller(ThreadOf(s, c).h) then Running(c) else p
    case SwitchTo(c, d) => if p == Running(c) && |Ring(s, d)| < RING_CAPACITY then InRing(d) else p
    case Suspend(c) =>
      if p != Running(c) then p
      else if Op(s, ThreadOf(s, c).id).InFlight? then InOperation(ThreadOf(s, c).id)
      else HangsOn(ThreadOf(s, c).id)
    case Pull(c) => if p == InRing(c) && Ring(s, c) != [] && Ring(s, c)[0] == h then InQueue(c) else p
    case ResumeFront(c) => if p == InQueue(c) && Queue(s, c)[0] == h then Running(c) else p
    case Wake(c) => if p == InOperation(ThreadOf(s, c).id) then Running(c) else p
    case _ => p
  }

  /** Who is said to run, to wait for a callee or to wait in an operation does. */
  predicate Here(s: State, h: Handle) {
    match At(s, h)
    case Running(c) => Runs(s, c) == Some(h)
    case AsCaller(callee) => Caller(s, callee) == Some(h)
    case InOperation(id) => Waiter(Op(s, id)) == Some(h)
    case _ => true
  }

  lemma IsHere(s: State, h: Handle)
    requires OneHolder(s)
    ensures Here(s, h)
  {
    assert Holds(s, At(s, h), h) == One(!At(s, h).Gone?);
  }

  lemma GoesByCoroutine(s: State, act: Act, h: Handle)
    requires Enabled(s, act) && ByCoroutine(act) && Found(s, act) && Here(s, h)
    ensures At(Stepped(s, act), h) == Goes(s, act, h, At(s, h))
  {
    if act.Finish? || act.AwaitTask? { GoesByTask(s, act, h); }
  }

  lemma GoesByTask(s: State, act: Act, h: Handle)
    requires Enabled(s, act) && (act.Finish? || act.AwaitTask?) && Found(s, act) && Here(s, h)
    ensures At(Stepped(s, act), h) == Goes(s, act, h, At(s, h))
  {
  }

  lemma GoesByLoop(s: State, act: Act, h: Handle)
    requires Enabled(s, act) && ByLoop(act) && Found(s, act) && Here(s, h)
    ensures At(Stepped(s, act), h) == Goes(s, act, h, At(s, h))
  {
  }

  lemma PlaceFollows(s: State, act: Act, h: Handle)
    requires Inv(s) && Enabled(s, act)
    ensures At(Stepped(s, act), h) == Goes(s, act, h, At(s, h))
  {
    Finds(s, act);
    IsHere(s, h);
    if ByCoroutine(act) { GoesByCoroutine(s, act, h); }
    else if ByLoop(act) { GoesByLoop(s, act, h); }
  }

  /**
   Every step of every run takes exactly the coroutines it is about, each to the one place where it belongs next, and
   leaves all others where they are.
   */
  lemma EveryoneGoes(ss: seq<State>, acts: seq<Act>, i: nat, h: Handle, p: Place)
    requires Run(ss, acts) && i < |acts| && Holds(ss[i], p, h) == 1
    ensures
      var next := Goes(ss[i], acts[i], h, p);
      forall q {:trigger Holds(ss[i + 1], q, h)} :: Holds(ss[i + 1], q, h) == One(q == next && !q.Gone?)
  {
    EveryStateInv(ss, acts, i);
    EveryStateInv(ss, acts, i + 1);
    FoundIn(ss[i], p, h);
    PlaceFollows(ss[i], acts[i], h);
  }

  // ---------------------------------------------------------------- awaiting a Task

  /** The coroutine has been started, and has not ended. */
  predicate Started(s: State, h: Handle) {
    !At(s, h).Gone? && !At(s, h).InTask?
  }

  ghost predicate Survives(ss: seq<State>, acts: seq<Act>, i: nat, j: nat, h: Handle)
    requires |ss| == |acts| + 1 && j <= |acts|
  {
    forall m {:trigger acts[m]} :: i <= m < j ==> !Destroys(ss[m], acts[m], h)
  }

  lemma CallerStep(s: State, act: Act, h: Handle)
    requires Inv(s) && Enabled(s, act) && Started(s, h) && !Destroys(s, act, h)
    ensures Started(Stepped(s, act), h) && Caller(Stepped(s, act), h) == Caller(s, h)
  {
    Finds(s, act);
    PlaceFollows(s, act, h);
    IsHere(s, h);
    CallerKeptBy(s, act, h);
  }

  lemma CallerKeptBy(s: State, act: Act, h: Handle)
    requires Enabled(s, act) && Found(s, act) && !At(s, h).InTask? && !Destroys(s, act, h)
    ensures Caller(Stepped(s, act), h) == Caller(s, h)
  {
  }

  /** Who waits for a coroutine is settled when it starts. */
  lemma {:induction false} CallerStays(ss: seq<State>, acts: seq<Act>, i: nat, j: nat, h: Handle)
    requires Run(ss, acts) && i <= j <= |acts| && Started(ss[i], h) && Survives(ss, acts, i, j, h)
    ensures Started(ss[j], h) && Caller(ss[j], h) == Caller(ss[i], h)
    decreases j
  {
    if i < j {
      CallerStays(ss, acts, i, j - 1, h);
      EveryStateInv(ss, acts, j - 1);
      CallerStep(ss[j - 1], acts[j - 1], h);
    }
  }

  /** The callee runs in its caller's stead, which only the callee holds. */
  lemma CalleeTakesOver(ss: seq<State>, acts: seq<Act>, i: nat, c: Ctx, k: nat)
    requires Run(ss, acts) && i < |acts| && acts[i] == AwaitTask(c, k)
    ensures ThreadOf(ss[i], c).InCoroutine? && k < |ss[i].tasks|
    ensures
      var s', f, h := ss[i + 1], ThreadOf(ss[i], c).h, ss[i].tasks[k];
      && ThreadOf(s', c) == InCoroutine(h) && Caller(s', h) == Some(f) && Started(s', h)
      && forall p {:trigger Holds(s', p, f)} :: Holds(s', p, f) == One(p == AsCaller(h))
  {
    EveryStateInv(ss, acts, i);
    EveryStateInv(ss, acts, i + 1);
    var f, h := ThreadOf(ss[i], c).h, ss[i].tasks[k];
    assert Enabled(ss[i], acts[i]);
    Finds(ss[i], acts[i]);
    PlaceFollows(ss[i], acts[i], f);
    PlaceFollows(ss[i], acts[i], h);
  }

  /** Only the end of the callee touches a coroutine that waits for it. */
  lemma OnlyTheCalleeResumes(s: State, act: Act, f: Handle, h: Handle)
    requires Enabled(s, act) && Found(s, act) && At(s, f) == AsCaller(h)
    ensures Resumes(s, act, f) || Destroys(s, act, f) ==> act.Finish? && Destroys(s, act, h)
  {
  }

  /**
   `co_await` on a Task: as long as the callee lives, its caller is held by it alone, and no step resumes or destroys it.
   The callee's end, on whatever context it comes, leaves that context's thread running the caller.
   */
  lemma AwaitedTaskResumesCaller(ss: seq<State>, acts: seq<Act>, i: nat, j: nat, c: Ctx, k: nat)
    requires Run(ss, acts) && i < j < |acts| && acts[i] == AwaitTask(c, k)
    requires ThreadOf(ss[i], c).InCoroutine? && k < |ss[i].tasks| && Survives(ss, acts, i + 1, j, ss[i].tasks[k])
    ensures
      var f, h := ThreadOf(ss[i], c).h, ss[i].tasks[k];
      && (forall p {:trigger Holds(ss[j], p, f)} :: Holds(ss[j], p, f) == One(p == AsCaller(h)))
      && (Resumes(ss[j], acts[j], f) || Destroys(ss[j], acts[j], f) ==> Destroys(ss[j], acts[j], h))
      && (Destroys(ss[j], acts[j], h) ==> acts[j].Finish? && ThreadOf(ss[j + 1], acts[j].c) == InCoroutine(f))
  {
    var f, h := ThreadOf(ss[i], c).h, ss[i].tasks[k];
    CalleeTakesOver(ss, acts, i, c, k);
    CallerStays(ss, acts, i + 1, j, h);
    EveryStateInv(ss, acts, j);
    CallerAt(ss[j], h);
    Finds(ss[j], acts[j]);
    OnlyTheCalleeResumes(ss[j], acts[j], f, h);
    if Destroys(ss[j], acts[j], h) {
      EndOfCallee(ss[j], acts[j], f, h);
    }
  }

  lemma EndOfCallee(s: State, act: Act, f: Handle, h: Handle)
    requires Enabled(s, act) && Found(s, act) && Caller(s, h) == Some(f) && Started(s, h) && Destroys(s, act, h)
    ensures act.Finish? && ThreadOf(Stepped(s, act), act.c) == InCoroutine(f)
  {
  }

  /** A coroutine that was spawned has no caller: when it ends, its thread is back in the context's loop. */
  lemma SpawnedEndsInLoop(ss: seq<State>, acts: seq<Act>, i: nat, j: nat, c: Ctx, k: nat)
    requires Run(ss, acts) && i < j < |acts| && acts[i] == CoSpawn(k, c)
    requires k < |ss[i].tasks| && Survives(ss, acts, i + 1, j, ss[i].tasks[k]) && Destroys(ss[j], acts[j], ss[i].tasks[k])
    ensures acts[j].Finish? && ThreadOf(ss[j + 1], acts[j].c) == AtLoop
  {
    var h := ss[i].tasks[k];
    EveryStateInv(ss, acts, i);
    assert Enabled(ss[i], acts[i]) && CallerOk(ss[i], h);
    TaskAt(ss[i], k);
    PlaceFollows(ss[i], acts[i], h);
    CallerStays(ss, acts, i + 1, j, h);
    EveryStateInv(ss, acts, j);
    Finds(ss[j], acts[j]);
    assert ss[j + 1] == Stepped(ss[j], acts[j]);
  }

  // ---------------------------------------------------------------- awaiting an operation

  /** Whether an operation has an SQE and the loop has not stored its CQE, by the steps so far. */
  predicate AwaitsCqe(acts: seq<Act>, id: OpId) {
    if acts == [] then false
    else
      match acts[|acts| - 1]
      case Issue(_, x, sqe) => if x == id then sqe else AwaitsCqe(acts[..|acts| - 1], id)
      case Store(x) => x != id && AwaitsCqe(acts[..|acts| - 1], id)
      case _ => AwaitsCqe(acts[..|acts| - 1], id)
  }

  predicate IsPending(s: State, id: OpId) {
    Op(s, id).InFlight? && Op(s, id).stage.Pending?
  }

  lemma PendingStep(s: State, act: Act, id: OpId)
    requires Inv(s) && Enabled(s, act)
    ensures IsPending(Stepped(s, act), id) ==
      match act
      case Issue(_, x, sqe) => if x == id then sqe else IsPending(s, id)
      case Store(x) => x != id && IsPending(s, id)
      case _ => IsPending(s, id)
  {
    if act.Wake? { assert ThreadOk(s, act.c); }
  }

  lemma {:induction false} PendingIs(ss: seq<State>, acts: seq<Act>, i: nat, id: OpId)
    requires Run(ss, acts) && i < |ss|
    ensures IsPending(ss[i], id) == AwaitsCqe(acts[..i], id)
  {
    if i > 0 {
      PendingIs(ss, acts, i - 1, id);
      EveryStateInv(ss, acts, i - 1);
      PendingStep(ss[i - 1], acts[i - 1], id);
      assert acts[..i][..i - 1] == acts[..i - 1];
    }
  }

  /**
   `await_ready`: the coroutine goes on to wait if and only if its operation got an SQE and no CQE of it was stored; in
   particular one that got no SQE is never waited for.
   */
  lemma WaitsIff(ss: seq<State>, acts: seq<Act>, i: nat, c: Ctx, id: OpId)
    requires Run(ss, acts) && i < |acts| && acts[i] == TestReady(c, id)
    ensures ThreadOf(ss[i], c).InCoroutine?
    ensures
      var h := ThreadOf(ss[i], c).h;
      ThreadOf(ss[i + 1], c) == if AwaitsCqe(acts[..i], id) then InAwait(h, id) else InCoroutine(h)
  {
    PendingIs(ss, acts, i, id);
    assert Enabled(ss[i], acts[i]);
  }

  /** The loop of a context reads the operation's `h`. */
  predicate Answers(s: State, act: Act, id: OpId) {
    act.Wake? && ThreadOf(s, act.c) == InReap(id)
  }

  ghost predicate NoAnswer(ss: seq<State>, acts: seq<Act>, i: nat, j: nat, id: OpId)
    requires |ss| == |acts| + 1 && j <= |acts|
  {
    forall m {:trigger acts[m]} :: i <= m < j ==> !Answers(ss[m], acts[m], id)
  }

  /** The coroutine waits in an operation of this context. */
  predicate IsIn(s: State, f: Handle, id: OpId, c: Ctx) {
    Op(s, id).InFlight? && Op(s, id).h == Some(f) && Op(s, id).ctx == c
  }

  lemma WaitsOn(s: State, act: Act, f: Handle, id: OpId, c: Ctx)
    requires Inv(s) && Enabled(s, act) && IsIn(s, f, id, c) && !Answers(s, act, id)
    ensures IsIn(Stepped(s, act), f, id, c)
  {
    if act.Suspend? || act.Wake? { assert ThreadOk(s, act.c); }
    if act.TestReady? && act.id == id { OwnerRuns(s, id, act.c); }
  }

  lemma {:induction false} StillWaits(ss: seq<State>, acts: seq<Act>, i: nat, j: nat, f: Handle, id: OpId, c: Ctx)
    requires Run(ss, acts) && i <= j <= |acts| && IsIn(ss[i], f, id, c) && NoAnswer(ss, acts, i, j, id)
    ensures IsIn(ss[j], f, id, c)
    decreases j
  {
    if i < j {
      StillWaits(ss, acts, i, j - 1, f, id, c);
      EveryStateInv(ss, acts, j - 1);
      WaitsOn(ss[j - 1], acts[j - 1], f, id, c);
    }
  }

  lemma OnlyTheLoopResumes(s: State, act: Act, f: Handle, id: OpId)
    requires Inv(s) && Enabled(s, act) && Found(s, act) && At(s, f) == InOperation(id)
    ensures Resumes(s, act, f) || Destroys(s, act, f) ==> Answers(s, act, id)
  {
  }

  /**
   `co_await` on an operation in flight: until the loop of the context that issued it reads `h`, the coroutine is held
   by the operation alone and no step resumes or destroys it; that loop then runs it.
   */
  lemma AwaitedOperationResumes(ss: seq<State>, acts: seq<Act>, i: nat, j: nat, c: Ctx)
    requires Run(ss, acts) && i < j < |acts| && acts[i] == Suspend(c) && InTheMiddle(ss[i], c)
    requires NoAnswer(ss, acts, i + 1, j, ThreadOf(ss[i], c).id)
    ensures
      var f, id := ThreadOf(ss[i], c).h, ThreadOf(ss[i], c).id;
      && ThreadOf(ss[i + 1], c) == AtLoop
      && (forall p {:trigger Holds(ss[j], p, f)} :: Holds(ss[j], p, f) == One(p == InOperation(id)))
      && (Resumes(ss[j], acts[j], f) || Destroys(ss[j], acts[j], f) ==> Answers(ss[j], acts[j], id))
      && (Answers(ss[j], acts[j], id) ==> acts[j].c == Op(ss[i], id).ctx && ThreadOf(ss[j + 1], acts[j].c) == InCoroutine(f))
  {
    var f, id := ThreadOf(ss[i], c).h, ThreadOf(ss[i], c).id;
    EveryStateInv(ss, acts, i);
    assert Enabled(ss[i], acts[i]) && ThreadOk(ss[i], c);
    StillWaits(ss, acts, i + 1, j, f, id, Op(ss[i], id).ctx);
    EveryStateInv(ss, acts, j);
    WaiterAt(ss[j], id);
    Finds(ss[j], acts[j]);
    OnlyTheLoopResumes(ss[j], acts[j], f, id);
    if acts[j].Wake? {
      assert ThreadOk(ss[j], acts[j].c);
    }
  }

  // ---------------------------------------------------------------- queues

  /** Who joins the end of a context's queue. */
  function Joining(s: State, act: Act, c: Ctx): seq<Handle>
    requires Enabled(s, act)
  {
    match act
    case CoSpawn(k, d) => if d == c then [s.tasks[k]] else []
    case Pull(d) => if d == c && Ring(s, c) != [] then [Ring(s, c)[0]] else []
    case _ => []
  }

  lemma QueueFollows(s: State, act: Act, c: Ctx)
    requires Enabled(s, act)
    ensures Queue(Stepped(s, act), c) == (if act == ResumeFront(c) then Queue(s, c)[1..] else Queue(s, c) + Joining(s, act, c))
    ensures act == ResumeFront(c) ==> ThreadOf(Stepped(s, act), c) == InCoroutine(Queue(s, c)[0])
  {
  }

  lemma RingFollows(s: State, act: Act, d: Ctx)
    requires Enabled(s, act)
    ensures Ring(Stepped(s, act), d) ==
      match act
      case Pull(e) => if e == d && Ring(s, d) != [] then Ring(s, d)[1..] else Ring(s, d)
      case SwitchTo(c, e) => if e == d && |Ring(s, d)| < RING_CAPACITY then Ring(s, d) + [ThreadOf(s, c).h] else Ring(s, d)
      case _ => Ring(s, d)
  {
  }

  /** How many of these steps equal this one. */
  function Times(acts: seq<Act>, i: nat, j: nat, act: Act): nat
    requires i <= j <= |acts|
  {
    if i == j then 0 else Times(acts, i, j - 1, act) + One(acts[j - 1] == act)
  }

  /** What step m does to the front and the end of context c's queue. */
  predicate QueueMoves(ss: seq<State>, acts: seq<Act>, m: int, c: Ctx)
    requires |ss| == |acts| + 1 && 0 <= m < |acts|
  {
    var q, q' := Queue(ss[m], c), Queue(ss[m + 1], c);
    if acts[m] == ResumeFront(c) then q != [] && q' == q[1..] else q <= q'
  }

  predicate RingMoves(ss: seq<State>, acts: seq<Act>, m: int, d: Ctx)
    requires |ss| == |acts| + 1 && 0 <= m < |acts|
  {
    var r, r' := Ring(ss[m], d), Ring(ss[m + 1], d);
    if acts[m] == Pull(d) then r' == r[One(r != [])..] else r <= r'
  }

  lemma QueueMovesIn(ss: seq<State>, acts: seq<Act>, m: nat, c: Ctx)
    requires Run(ss, acts) && m < |acts|
    ensures QueueMoves(ss, acts, m, c) && RingMoves(ss, acts, m, c)
  {
    assert Enabled(ss[m], acts[m]);
    QueueFollows(ss[m], acts[m], c);
    RingFollows(ss[m], acts[m], c);
  }

  lemma {:induction false} MovesUpInQueue(ss: seq<State>, acts: seq<Act>, i: nat, j: nat, c: Ctx, k: nat)
    requires |ss| == |acts| + 1 && i <= j <= |acts|
    requires forall m {:trigger QueueMoves(ss, acts, m, c)} :: i <= m < j ==> QueueMoves(ss, acts, m, c)
    requires k < |Queue(ss[i], c)| && Times(acts, i, j, ResumeFront(c)) <= k
    ensures
      var left := k - Times(acts, i, j, ResumeFront(c));
      left < |Queue(ss[j], c)| && Queue(ss[j], c)[left] == Queue(ss[i], c)[k]
    decreases j
  {
    if i < j {
      MovesUpInQueue(ss, acts, i, j - 1, c, k);
      assert QueueMoves(ss, acts, j - 1, c);
    }
  }

  /** Whoever stands behind k others in a context's queue is the (k + 1)-th that the context resumes from it. */
  lemma FirstComeFirstResumed(ss: seq<State>, acts: seq<Act>, i: nat, j: nat, c: Ctx, k: nat)
    requires Run(ss, acts) && i <= j < |acts| && k < |Queue(ss[i], c)|
    requires acts[j] == ResumeFront(c) && Times(acts, i, j, ResumeFront(c)) == k
    ensures ThreadOf(ss[j + 1], c) == InCoroutine(Queue(ss[i], c)[k])
  {
    forall m | i <= m < j ensures QueueMoves(ss, acts, m, c) { QueueMovesIn(ss, acts, m, c); }
    MovesUpInQueue(ss, acts, i, j, c, k);
    assert Enabled(ss[j], acts[j]);
    QueueFollows(ss[j], acts[j], c);
  }

  lemma {:induction false} MovesUpInRing(ss: seq<State>, acts: seq<Act>, i: nat, j: nat, d: Ctx, k: nat)
    requires |ss| == |acts| + 1 && i <= j <= |acts|
    requires forall m {:trigger RingMoves(ss, acts, m, d)} :: i <= m < j ==> RingMoves(ss, acts, m, d)
    requires k < |Ring(ss[i], d)| && Times(acts, i, j, Pull(d)) <= k
    ensures
      var left := k - Times(acts, i, j, Pull(d));
      left < |Ring(ss[j], d)| && Ring(ss[j], d)[left] == Ring(ss[i], d)[k]
    decreases j
  {
    if i < j {
      MovesUpInRing(ss, acts, i, j - 1, d, k);
      assert RingMoves(ss, acts, j - 1, d);
    }
  }

  /** Whoever stands behind k others in a switch ring is the (k + 1)-th that is pulled, to the end of the queue. */
  lemma FirstComeFirstPulled(ss: seq<State>, acts: seq<Act>, i: nat, j: nat, d: Ctx, k: nat)
    requires Run(ss, acts) && i <= j < |acts| && k < |Ring(ss[i], d)|
    requires acts[j] == Pull(d) && Times(acts, i, j, Pull(d)) == k
    ensures Queue(ss[j + 1], d) == Queue(ss[j], d) + [Ring(ss[i], d)[k]]
  {
    forall m | i <= m < j ensures RingMoves(ss, acts, m, d) { QueueMovesIn(ss, acts, m, d); }
    MovesUpInRing(ss, acts, i, j, d, k);
    assert Enabled(ss[j], acts[j]);
    QueueFollows(ss[j], acts[j], d);
  }

  /** A spawned coroutine stands last in its context's queue. */
  lemma SpawnedIsLast(ss: seq<State>, acts: seq<Act>, i: nat, k: nat, c: Ctx)
    requires Run(ss, acts) && i < |acts| && acts[i] == CoSpawn(k, c)
    ensures k < |ss[i].tasks| && Queue(ss[i + 1], c) == Queue(ss[i], c) + [ss[i].tasks[k]]
  {
    assert Enabled(ss[i], acts[i]);
    QueueFollows(ss[i], acts[i], c);
  }

  // ---------------------------------------------------------------- nobody is stuck

  /** The coroutine has not seen the end of this operation in its frame. */
  predicate Unseen(s: State, h: Handle, id: OpId) {
    Op(s, id).InFlight? && Op(s, id).owner == h && !Op(s, id).stage.Seen?
  }

  /**
   No deadlock: in every state of every run each context's thread can take its next step. Its loop can always pull, and
   resume or reap whatever is there; a coroutine can finish unless an operation in its frame may still be in flight, and
   then it can await that operation.
   */
  lemma NoThreadIsStuck(ss: seq<State>, acts: seq<Act>, i: nat, c: Ctx)
    requires Run(ss, acts) && i < |ss|
    ensures
      var s := ss[i];
      match ThreadOf(s, c)
      case AtLoop =>
        && Enabled(s, Pull(c)) && (Queue(s, c) != [] ==> Enabled(s, ResumeFront(c)))
        && forall id {:trigger IsPending(s, id)} :: IsPending(s, id) && Op(s, id).ctx == c ==> Enabled(s, Store(id))
      case InReap(_) => Enabled(s, Wake(c))
      case InAwait(_, _) => Enabled(s, Suspend(c))
      case InCoroutine(h) =>
        if exists id {:trigger Op(s, id)} :: Unseen(s, h, id) then exists id {:trigger Op(s, id)} :: Enabled(s, TestReady(c, id))
        else Enabled(s, Finish(c))
  {
    EveryStateInv(ss, acts, i);
    var s := ss[i];
    assert ThreadOk(s, c);
    if ThreadOf(s, c).InCoroutine? {
      var h := ThreadOf(s, c).h;
      if id :| Unseen(s, h, id) {
        assert Enabled(s, TestReady(c, id)) && Op(s, id) == Op(s, id);
      }
    }
  }

  lemma FirstThen(s: State, act: Act, rest: seq<Act>)
    requires Enabled(s, act) && Legal(Stepped(s, act), rest)
    ensures Legal(s, [act] + rest) && AfterAll(s, [act] + rest) == AfterAll(Stepped(s, act), rest)
  {
    assert ([act] + rest)[1..] == rest;
  }

  /** A coroutine in a ring is pulled, resumed and finishes, and its caller runs on there. */
  lemma EndsThere(s: State, c: Ctx, d: Ctx, h: Handle, f: Handle)
    requires ThreadOf(s, d).AtLoop? && Queue(s, d) == [] && Ring(s, d) == [h] && Caller(s, h) == Some(f) && MayFinish(s, h)
    requires h != f && c != d
    ensures Legal(s, [Pull(d), ResumeFront(d), Finish(d)])
    ensures
      var s' := AfterAll(s, [Pull(d), ResumeFront(d), Finish(d)]);
      ThreadOf(s', d) == InCoroutine(f) && At(s', h).Gone? && ThreadOf(s', c) == ThreadOf(s, c)
  {
    var s1 := Stepped(s, Pull(d));
    var s2 := Stepped(s1, ResumeFront(d));
    forall id ensures Op(s2, id) == Op(s, id) {}
    var s3 := Stepped(s2, Finish(d));
    assert AfterAll(s3, []) == s3;
    FirstThen(s2, Finish(d), []);
    FirstThen(s1, ResumeFront(d), [Finish(d)]);
    FirstThen(s, Pull(d), [ResumeFront(d), Finish(d)]);
    assert [Pull(d)] + [ResumeFront(d), Finish(d)] == [Pull(d), ResumeFront(d), Finish(d)];
  }

  /** A caller follows its callee: awaited on one context, the callee switches to another and ends there. */
  lemma CallerFollows(s: State, c: Ctx, k: nat, d: Ctx)
    requires Inv(s) && ThreadOf(s, c).InCoroutine? && k < |s.tasks| && MayFinish(s, s.tasks[k])
    requires MayPush(s, c, d) && ThreadOf(s, d).AtLoop? && Queue(s, d) == [] && Ring(s, d) == []
    ensures Legal(s, [AwaitTask(c, k), SwitchTo(c, d), Pull(d), ResumeFront(d), Finish(d)])
    ensures
      var s' := AfterAll(s, [AwaitTask(c, k), SwitchTo(c, d), Pull(d), ResumeFront(d), Finish(d)]);
      ThreadOf(s', c).AtLoop? && ThreadOf(s', d) == InCoroutine(ThreadOf(s, c).h) && At(s', s.tasks[k]).Gone?
  {
    TaskAt(s, k);
    RunnerAt(s, c);
    var s1 := Stepped(s, AwaitTask(c, k));
    var s2 := Stepped(s1, SwitchTo(c, d));
    forall id ensures Op(s2, id) == Op(s, id) {}
    var last := [Pull(d), ResumeFront(d), Finish(d)];
    EndsThere(s2, c, d, s.tasks[k], ThreadOf(s, c).h);
    FirstThen(s1, SwitchTo(c, d), last);
    FirstThen(s, AwaitTask(c, k), [SwitchTo(c, d)] + last);
    assert [AwaitTask(c, k)] + ([SwitchTo(c, d)] + last) == [AwaitTask(c, k), SwitchTo(c, d), Pull(d), ResumeFront(d), Finish(d)];
  }
}
