/**
 Who holds a coroutine of coroutine.h and co_context_switch.h. Any number of contexts run, each on its own thread, one
 coroutine at a time. What two threads can both touch is split into its accesses: `co_await` on an operation into the
 test of `await_ready` and the store of `await_suspend`, its reaping into the store of `cqe` and the read of `h`. A ring
 has one context that pushes, or a lock, as `push_to_switch` demands; a context's queue is its own thread's. Operations
 complete once and are not cancelled.
 */
module CoroutineOwnership {
  import opened Lists

  type Handle = nat
  type Ctx = nat
  type OpId = nat

  const RING_CAPACITY: nat := 63

  datatype Option<T> = None | Some(value: T)

  /** What the reaping loop has done about an operation: nothing, stored its CQE, or that, and its coroutine saw it. */
  datatype Stage = Pending | Stored | Seen

  /**
   An operation: the context whose loop reaps it, the coroutine in whose frame it lives, and its `h`, a no-op handle
   until it is awaited. It is completed once the loop has read `h`; `late` says that `h` was stored after that.
   */
  datatype Operation =
    | Unused
    | InFlight(ctx: Ctx, owner: Handle, h: Option<Handle>, stage: Stage)
    | Completed(owner: Handle, late: bool)

  /** Where a coroutine frame is; `Gone` when there is no such frame, not yet or no longer. */
  datatype Place =
    | Gone
    | InTask | InQueue(c: Ctx) | InRing(c: Ctx) | InOperation(id: OpId) | AsCaller(callee: Handle) | Running(c: Ctx)
    // in an operation that nobody looks at any more
    | HangsOn(id: OpId)

  /**
   What a context's thread is doing: its loop; its loop, between storing the CQE of an operation and reading its `h`; a
   coroutine; a coroutine that has found an operation unfinished and is about to store its handle there.
   */
  datatype Thread = AtLoop | InReap(id: OpId) | InCoroutine(h: Handle) | InAwait(h: Handle, id: OpId)

  /** A switch ring, the context that pushes onto it, and whether those that push hold a lock. */
  datatype SwitchRing = SwitchRing(handles: seq<Handle>, pusher: Option<Ctx>, locked: bool)

  /**
   `tasks` are the handles of Task objects, `queues` the contexts' `_operations`, `rings` their switch rings, `callers`
   the promises' `_caller`. `place` is not in the program: it says which frames exist, so that the allocator hands out
   no address of a live one, and where the proof expects each.
   */
  datatype State = State(
    tasks: seq<Handle>, queues: map<Ctx, seq<Handle>>, rings: map<Ctx, SwitchRing>, ops: map<OpId, Operation>,
    callers: map<Handle, Handle>, threads: map<Ctx, Thread>, place: map<Handle, Place>)

  function Queue(s: State, c: Ctx): seq<Handle> { if c in s.queues then s.queues[c] else [] }
  function RingOf(s: State, c: Ctx): SwitchRing { if c in s.rings then s.rings[c] else SwitchRing([], None, false) }
  function Ring(s: State, c: Ctx): seq<Handle> { RingOf(s, c).handles }
  function Op(s: State, id: OpId): Operation { if id in s.ops then s.ops[id] else Unused }
  function Caller(s: State, h: Handle): Option<Handle> { if h in s.callers then Some(s.callers[h]) else None }
  function ThreadOf(s: State, c: Ctx): Thread { if c in s.threads then s.threads[c] else AtLoop }
  function At(s: State, h: Handle): Place { if h in s.place then s.place[h] else Gone }

  /** The coroutine that a thread executes. */
  function Runs(s: State, c: Ctx): Option<Handle> {
    match ThreadOf(s, c)
    case InCoroutine(h) => Some(h)
    case InAwait(h, _) => Some(h)
    case _ => None
  }

  /** The coroutine that the loop will resume. */
  function Waiter(o: Operation): Option<Handle> { if o.InFlight? then o.h else None }

  /** The coroutine whose handle came too late. */
  function Latecomer(o: Operation): Option<Handle> { if o.Completed? && o.late then Some(o.owner) else None }

  /** How often a place holds a handle. */
  function Holds(s: State, p: Place, h: Handle): nat {
    match p
    case Gone => 0
    case InTask => Count(s.tasks, h)
    case InQueue(c) => Count(Queue(s, c), h)
    case InRing(c) => Count(Ring(s, c), h)
    case InOperation(id) => One(Waiter(Op(s, id)) == Some(h))
    case AsCaller(callee) => One(Caller(s, callee) == Some(h))
    case Running(c) => One(Runs(s, c) == Some(h))
    case HangsOn(id) => One(Latecomer(Op(s, id)) == Some(h))
  }

  // ---------------------------------------------------------------- steps

  datatype Act =
    // by whoever: a coroutine function is called, a Task dies unstarted, a Task is spawned (i-th Task object)
    | Make(h: Handle) | Drop(i: nat) | CoSpawn(i: nat, c: Ctx)
    // by the coroutine that context c runs
    | AwaitTask(c: Ctx, i: nat) | Finish(c: Ctx) | Issue(c: Ctx, id: OpId, sqe: bool) | SwitchTo(c: Ctx, d: Ctx)
    // `co_await` on an operation: await_ready, then await_suspend if the operation had not completed
    | TestReady(c: Ctx, id: OpId) | Suspend(c: Ctx)
    // by the context's own loop, the last two for one CQE
    | Pull(c: Ctx) | ResumeFront(c: Ctx) | Store(id: OpId) | Wake(c: Ctx)

  /** A coroutine does not finish while an operation that lives in its frame is, for all it knows, in flight. */
  ghost predicate MayFinish(s: State, f: Handle) {
    forall id {:trigger Op(s, id)} :: Op(s, id).InFlight? && Op(s, id).owner == f ==> Op(s, id).stage.Seen?
  }

  /** The memory of an operation that is in flight, being awaited or awaited in vain is not used for another. */
  ghost predicate MayIssue(s: State, id: OpId) {
    && !Op(s, id).InFlight? && Latecomer(Op(s, id)).None?
    && forall c {:trigger ThreadOf(s, c)} :: ThreadOf(s, c).InAwait? ==> ThreadOf(s, c).id != id
  }

  /** Several contexts push onto one ring only under a lock. */
  predicate MayPush(s: State, c: Ctx, d: Ctx) {
    var r := RingOf(s, d);
    r.locked || r.pusher.None? || r.pusher == Some(c)
  }

  ghost predicate Enabled(s: State, act: Act) {
    match act
    // the allocator hands out an address that no live frame has
    case Make(h) => At(s, h).Gone?
    case Drop(i) => i < |s.tasks|
    case CoSpawn(i, _) => i < |s.tasks|
    case AwaitTask(c, i) => ThreadOf(s, c).InCoroutine? && i < |s.tasks|
    case Finish(c) => ThreadOf(s, c).InCoroutine? && MayFinish(s, ThreadOf(s, c).h)
    case Issue(c, id, _) => ThreadOf(s, c).InCoroutine? && MayIssue(s, id)
    case SwitchTo(c, d) => ThreadOf(s, c).InCoroutine? && MayPush(s, c, d)
    case TestReady(c, id) => ThreadOf(s, c).InCoroutine? && !Op(s, id).Unused? && Op(s, id).owner == ThreadOf(s, c).h
    case Suspend(c) => ThreadOf(s, c).InAwait?
    case Pull(c) => ThreadOf(s, c).AtLoop?
    case ResumeFront(c) => ThreadOf(s, c).AtLoop? && Queue(s, c) != []
    case Store(id) => Op(s, id).InFlight? && Op(s, id).stage.Pending? && ThreadOf(s, Op(s, id).ctx).AtLoop?
    case Wake(c) => ThreadOf(s, c).InReap? && Op(s, ThreadOf(s, c).id).InFlight?
  }

  function MakeStep(s: State, h: Handle): State {
    s.(tasks := s.tasks + [h], place := s.place[h := InTask])
  }

  /** A Task that was never started destroys its coroutine. */
  function DropStep(s: State, i: nat): State
    requires i < |s.tasks|
  {
    s.(tasks := RemoveAt(s.tasks, i), place := s.place[s.tasks[i] := Gone])
  }

  function CoSpawnStep(s: State, i: nat, c: Ctx): State
    requires i < |s.tasks|
  {
    s.(tasks := RemoveAt(s.tasks, i), queues := s.queues[c := Queue(s, c) + [s.tasks[i]]],
       place := s.place[s.tasks[i] := InQueue(c)])
  }

  /** `co_await std::move(task)`: the caller is noted in the callee's promise, and the callee runs in its stead. */
  function AwaitTaskStep(s: State, c: Ctx, i: nat): State
    requires i < |s.tasks| && ThreadOf(s, c).InCoroutine?
  {
    var f, h := ThreadOf(s, c).h, s.tasks[i];
    s.(tasks := RemoveAt(s.tasks, i), callers := s.callers[h := f], threads := s.threads[c := InCoroutine(h)],
       place := s.place[f := AsCaller(h)][h := Running(c)])
  }

  /** `final_suspend`: the frame destroys itself and its caller is resumed, a no-op if it has none. */
  function FinishStep(s: State, c: Ctx): State
    requires ThreadOf(s, c).InCoroutine?
  {
    var f := ThreadOf(s, c).h;
    match Caller(s, f)
    case None => s.(threads := s.threads[c := AtLoop], place := s.place[f := Gone])
    case Some(g) =>
      s.(threads := s.threads[c := InCoroutine(g)], callers := s.callers - {f}, place := s.place[f := Gone][g := Running(c)])
  }

  /** An operation without an SQE yields -ENOMEM at once. */
  function IssueStep(s: State, c: Ctx, id: OpId, sqe: bool): State
    requires ThreadOf(s, c).InCoroutine?
  {
    var f := ThreadOf(s, c).h;
    s.(ops := s.ops[id := if sqe then InFlight(c, f, None, Pending) else Completed(f, false)])
  }

  /** `await_ready`: an operation whose CQE is there, or that got no SQE, is not waited for. */
  function TestStep(s: State, c: Ctx, id: OpId): State
    requires ThreadOf(s, c).InCoroutine?
  {
    match Op(s, id)
    case InFlight(ctx, owner, h, stage) =>
      if stage.Pending? then s.(threads := s.threads[c := InAwait(ThreadOf(s, c).h, id)])
      else s.(ops := s.ops[id := InFlight(ctx, owner, h, Seen)])
    case _ => s
  }

  /** `await_suspend` stores `h`, although the loop may have read it since `await_ready`. */
  function SuspendStep(s: State, c: Ctx): State
    requires ThreadOf(s, c).InAwait?
  {
    var f, id := ThreadOf(s, c).h, ThreadOf(s, c).id;
    match Op(s, id)
    case InFlight(ctx, owner, _, stage) =>
      s.(threads := s.threads[c := AtLoop], ops := s.ops[id := InFlight(ctx, owner, Some(f), stage)],
         place := s.place[f := InOperation(id)])
    case _ =>
      s.(threads := s.threads[c := AtLoop], ops := s.ops[id := Completed(f, true)], place := s.place[f := HangsOn(id)])
  }

  /** `switch_to`: with the other context's ring full, the coroutine goes on where it was. */
  function SwitchStep(s: State, c: Ctx, d: Ctx): State
    requires ThreadOf(s, c).InCoroutine?
  {
    var f, r := ThreadOf(s, c).h, RingOf(s, d).(pusher := Some(c));
    if |r.handles| >= RING_CAPACITY then s.(rings := s.rings[d := r])
    else
      s.(rings := s.rings[d := r.(handles := r.handles + [f])], threads := s.threads[c := AtLoop],
         place := s.place[f := InRing(d)])
  }

  /** `run_once_prepare` pulls at most one coroutine. */
  function PullStep(s: State, c: Ctx): State {
    var r := RingOf(s, c);
    if r.handles == [] then s
    else
      var h := r.handles[0];
      s.(rings := s.rings[c := r.(handles := r.handles[1..])], queues := s.queues[c := Queue(s, c) + [h]],
         place := s.place[h := InQueue(c)])
  }

  function ResumeFrontStep(s: State, c: Ctx): State
    requires Queue(s, c) != []
  {
    var q := Queue(s, c);
    s.(queues := s.queues[c := q[1..]], threads := s.threads[c := InCoroutine(q[0])], place := s.place[q[0] := Running(c)])
  }

  /** The reaping loop stores the CQE. */
  function StoreStep(s: State, id: OpId): State
    requires Op(s, id).InFlight?
  {
    s.(ops := s.ops[id := Op(s, id).(stage := Stored)], threads := s.threads[Op(s, id).ctx := InReap(id)])
  }

  /** The reaping loop resumes `h`: nothing happens if no coroutine has stored its handle yet. */
  function WakeStep(s: State, c: Ctx): State
    requires ThreadOf(s, c).InReap? && Op(s, ThreadOf(s, c).id).InFlight?
  {
    var id := ThreadOf(s, c).id;
    var ops := s.ops[id := Completed(Op(s, id).owner, false)];
    match Op(s, id).h
    case None => s.(ops := ops, threads := s.threads[c := AtLoop])
    case Some(f) => s.(ops := ops, threads := s.threads[c := InCoroutine(f)], place := s.place[f := Running(c)])
  }

  function Stepped(s: State, act: Act): State
    requires Enabled(s, act)
  {
    match act
    case Make(h) => MakeStep(s, h)
    case Drop(i) => DropStep(s, i)
    case CoSpawn(i, c) => CoSpawnStep(s, i, c)
    case AwaitTask(c, i) => AwaitTaskStep(s, c, i)
    case Finish(c) => FinishStep(s, c)
    case Issue(c, id, sqe) => IssueStep(s, c, id, sqe)
    case SwitchTo(c, d) => SwitchStep(s, c, d)
    case TestReady(c, id) => TestStep(s, c, id)
    case Suspend(c) => SuspendStep(s, c)
    case Pull(c) => PullStep(s, c)
    case ResumeFront(c) => ResumeFrontStep(s, c)
    case Store(id) => StoreStep(s, id)
    case Wake(c) => WakeStep(s, c)
  }

  // ---------------------------------------------------------------- invariant

  ghost predicate OneHolder(s: State) {
    forall p, h {:trigger Holds(s, p, h)} :: Holds(s, p, h) == One(!p.Gone? && At(s, h) == p)
  }

  /** Only a coroutine that was awaited has a caller. */
  predicate CallerOk(s: State, h: Handle) {
    At(s, h).InTask? || At(s, h).Gone? ==> Caller(s, h).None?
  }

  /**
   The frame an operation in flight lives in exists, unless its coroutine has seen the CQE; only its own coroutine
   waits for it; its CQE has been stored just while its context's loop is at it.
   */
  predicate OperationOk(s: State, id: OpId) {
    var o := Op(s, id);
    o.InFlight? ==>
      && (o.stage.Seen? || (!At(s, o.owner).Gone? && !At(s, o.owner).InTask?))
      && (o.h.None? || (o.h == Some(o.owner) && !o.stage.Seen?))
      && (o.stage.Pending? || ThreadOf(s, o.ctx) == InReap(id))
  }

  /** What a thread is in the middle of: an operation of the coroutine it runs, or one that its loop reaps. */
  predicate ThreadOk(s: State, c: Ctx) {
    match ThreadOf(s, c)
    case InAwait(h, id) => Unanswered(Op(s, id), h)
    case InReap(id) => Op(s, id).InFlight? && Op(s, id).ctx == c && !Op(s, id).stage.Pending?
    case _ => true
  }

  /** An operation that this coroutine found unfinished, with `h` not stored. */
  predicate Unanswered(o: Operation, h: Handle) {
    !o.Unused? && o.owner == h && Waiter(o).None? && Latecomer(o).None? && (o.InFlight? ==> !o.stage.Seen?)
  }

  ghost predicate Links(s: State) {
    && (forall h {:trigger CallerOk(s, h)} :: CallerOk(s, h))
    && (forall id {:trigger OperationOk(s, id)} :: OperationOk(s, id))
    && (forall c {:trigger Ring(s, c)} :: |Ring(s, c)| <= RING_CAPACITY)
    && (forall c {:trigger ThreadOk(s, c)} :: ThreadOk(s, c))
  }

  ghost predicate Inv(s: State) {
    OneHolder(s) && Links(s)
  }

  // ---------------------------------------------------------------- one step

  /** Handle x went from place a to place b, and nothing else moved. */
  ghost predicate Moved(s: State, s': State, x: Handle, a: Place, b: Place) {
    && At(s, x) == a
    && (forall h {:trigger At(s', h)} :: At(s', h) == if h == x then b else At(s, h))
    && (forall p, h {:trigger Holds(s', p, h)} ::
          Holds(s', p, h) + One(h == x && p == a && !a.Gone?) == Holds(s, p, h) + One(h == x && p == b && !b.Gone?))
  }

  /** A handle found in a place is there, and nowhere else. */
  lemma FoundIn(s: State, p: Place, h: Handle)
    requires OneHolder(s) && Holds(s, p, h) > 0
    ensures At(s, h) == p && !p.Gone?
  {
  }

  lemma TaskAt(s: State, i: nat)
    requires OneHolder(s) && i < |s.tasks|
    ensures At(s, s.tasks[i]) == InTask
  {
    CountIn(s.tasks, s.tasks[i]);
    FoundIn(s, InTask, s.tasks[i]);
  }

  lemma Made(s: State, x: Handle)
    requires OneHolder(s) && At(s, x).Gone?
    ensures OneHolder(MakeStep(s, x))
  {
    forall p, h ensures Holds(MakeStep(s, x), p, h) == Holds(s, p, h) + One(h == x && p == InTask) {
      MakeHolds(s, x, p, h);
    }
  }

  lemma MakeHolds(s: State, x: Handle, p: Place, h: Handle)
    ensures Holds(MakeStep(s, x), p, h) == Holds(s, p, h) + One(h == x && p == InTask)
  {
    CountConcat(s.tasks, [x], h);
  }

  lemma Dropped(s: State, i: nat)
    requires OneHolder(s) && i < |s.tasks|
    ensures OneHolder(DropStep(s, i))
  {
    var s', x := DropStep(s, i), s.tasks[i];
    TaskAt(s, i);
    forall p, h ensures Holds(s', p, h) + One(h == x && p == InTask) == Holds(s, p, h) {
      DropHolds(s, i, p, h);
    }
  }

  lemma DropHolds(s: State, i: nat, p: Place, h: Handle)
    requires i < |s.tasks|
    ensures Holds(DropStep(s, i), p, h) + One(h == s.tasks[i] && p == InTask) == Holds(s, p, h)
  {
    CountRemoveAt(s.tasks, i, h);
  }

  lemma CoSpawned(s: State, i: nat, c: Ctx)
    requires OneHolder(s) && i < |s.tasks|
    ensures OneHolder(CoSpawnStep(s, i, c))
  {
    var s', x, to := CoSpawnStep(s, i, c), s.tasks[i], InQueue(c);
    TaskAt(s, i);
    forall p, h ensures Holds(s', p, h) + One(h == x && p == InTask) == Holds(s, p, h) + One(h == x && p == to) {
      CoSpawnHolds(s, i, c, p, h);
    }
  }

  lemma CoSpawnHolds(s: State, i: nat, c: Ctx, p: Place, h: Handle)
    requires i < |s.tasks|
    ensures
      var x, to := s.tasks[i], InQueue(c);
      Holds(CoSpawnStep(s, i, c), p, h) + One(h == x && p == InTask) == Holds(s, p, h) + One(h == x && p == to)
  {
    CountRemoveAt(s.tasks, i, h);
    CountConcat(Queue(s, c), [s.tasks[i]], h);
  }

  lemma Pulled(s: State, c: Ctx)
    requires OneHolder(s)
    ensures OneHolder(PullStep(s, c))
  {
    var s', r := PullStep(s, c), Ring(s, c);
    if r != [] {
      var x, from, to := r[0], InRing(c), InQueue(c);
      FoundIn(s, from, x);
      forall p, h ensures Holds(s', p, h) + One(h == x && p == from) == Holds(s, p, h) + One(h == x && p == to) {
        PullHolds(s, c, p, h);
      }
    }
  }

  lemma PullHolds(s: State, c: Ctx, p: Place, h: Handle)
    requires Ring(s, c) != []
    ensures
      var x, from, to := Ring(s, c)[0], InRing(c), InQueue(c);
      Holds(PullStep(s, c), p, h) + One(h == x && p == from) == Holds(s, p, h) + One(h == x && p == to)
  {
    CountConcat(Queue(s, c), [Ring(s, c)[0]], h);
  }

  lemma FrontResumed(s: State, c: Ctx)
    requires OneHolder(s) && Queue(s, c) != [] && Runs(s, c).None?
    ensures OneHolder(ResumeFrontStep(s, c))
  {
    var s', x, from, to := ResumeFrontStep(s, c), Queue(s, c)[0], InQueue(c), Running(c);
    FoundIn(s, from, x);
    forall p, h ensures Holds(s', p, h) + One(h == x && p == from) == Holds(s, p, h) + One(h == x && p == to) {}
  }

  lemma Switched(s: State, c: Ctx, d: Ctx)
    requires OneHolder(s) && ThreadOf(s, c).InCoroutine?
    ensures OneHolder(SwitchStep(s, c, d))
  {
    var s', x, from, to := SwitchStep(s, c, d), ThreadOf(s, c).h, Running(c), InRing(d);
    if |Ring(s, d)| < RING_CAPACITY {
      FoundIn(s, from, x);
      forall p, h ensures Holds(s', p, h) + One(h == x && p == from) == Holds(s, p, h) + One(h == x && p == to) {
        SwitchHolds(s, c, d, p, h);
      }
    } else {
      Unmoved(s, s');
    }
  }

  lemma SwitchHolds(s: State, c: Ctx, d: Ctx, p: Place, h: Handle)
    requires ThreadOf(s, c).InCoroutine? && |Ring(s, d)| < RING_CAPACITY
    ensures
      var x, from, to := ThreadOf(s, c).h, Running(c), InRing(d);
      Holds(SwitchStep(s, c, d), p, h) + One(h == x && p == from) == Holds(s, p, h) + One(h == x && p == to)
  {
    CountConcat(Ring(s, d), [ThreadOf(s, c).h], h);
  }

  function WaitsIn(o: Operation, id: OpId): Place {
    if o.InFlight? then InOperation(id) else HangsOn(id)
  }

  lemma Suspended(s: State, c: Ctx)
    requires OneHolder(s) && ThreadOf(s, c).InAwait? && ThreadOk(s, c)
    ensures OneHolder(SuspendStep(s, c))
  {
    var s', x, from, to := SuspendStep(s, c), ThreadOf(s, c).h, Running(c), WaitsIn(Op(s, ThreadOf(s, c).id), ThreadOf(s, c).id);
    FoundIn(s, from, x);
    forall p, h ensures Holds(s', p, h) + One(h == x && p == from) == Holds(s, p, h) + One(h == x && p == to) {
      SuspendHolds(s, c, p, h);
    }
  }

  lemma SuspendHolds(s: State, c: Ctx, p: Place, h: Handle)
    requires ThreadOf(s, c).InAwait? && ThreadOk(s, c)
    ensures
      var x, from, to := ThreadOf(s, c).h, Running(c), WaitsIn(Op(s, ThreadOf(s, c).id), ThreadOf(s, c).id);
      Holds(SuspendStep(s, c), p, h) + One(h == x && p == from) == Holds(s, p, h) + One(h == x && p == to)
  {
    if !Op(s, ThreadOf(s, c).id).InFlight? { LateHolds(s, c, p, h); }
  }

  lemma LateHolds(s: State, c: Ctx, p: Place, h: Handle)
    requires ThreadOf(s, c).InAwait? && ThreadOk(s, c) && !Op(s, ThreadOf(s, c).id).InFlight?
    ensures
      var x, from, to := ThreadOf(s, c).h, Running(c), HangsOn(ThreadOf(s, c).id);
      Holds(SuspendStep(s, c), p, h) + One(h == x && p == from) == Holds(s, p, h) + One(h == x && p == to)
  {
  }

  lemma Woken(s: State, c: Ctx)
    requires OneHolder(s) && ThreadOf(s, c).InReap? && Op(s, ThreadOf(s, c).id).InFlight?
    ensures OneHolder(WakeStep(s, c))
  {
    var s', id := WakeStep(s, c), ThreadOf(s, c).id;
    if Waiter(Op(s, id)).None? {
      Unmoved(s, s');
    } else {
      var x, from, to := Waiter(Op(s, id)).value, InOperation(id), Running(c);
      FoundIn(s, from, x);
      forall p, h ensures Holds(s', p, h) + One(h == x && p == from) == Holds(s, p, h) + One(h == x && p == to) {}
    }
  }

  /** Nothing changed that holds a coroutine. */
  lemma Unmoved(s: State, s': State)
    requires OneHolder(s)
    requires s'.tasks == s.tasks && s'.queues == s.queues && s'.callers == s.callers && s'.place == s.place
    requires forall c {:trigger Ring(s', c)} :: Ring(s', c) == Ring(s, c)
    requires forall c {:trigger Runs(s', c)} :: Runs(s', c) == Runs(s, c)
    requires forall id {:trigger Op(s', id)} ::
      Waiter(Op(s', id)) == Waiter(Op(s, id)) && Latecomer(Op(s', id)) == Latecomer(Op(s, id))
    ensures OneHolder(s')
  {
    forall p, h ensures Holds(s', p, h) == One(!p.Gone? && At(s', h) == p) {
      assert Holds(s, p, h) == One(!p.Gone? && At(s, h) == p);
    }
  }

  lemma Issued(s: State, c: Ctx, id: OpId, sqe: bool)
    requires OneHolder(s) && ThreadOf(s, c).InCoroutine? && !Op(s, id).InFlight? && Latecomer(Op(s, id)).None?
    ensures OneHolder(IssueStep(s, c, id, sqe))
  {
    Unmoved(s, IssueStep(s, c, id, sqe));
  }

  lemma Tested(s: State, c: Ctx, id: OpId)
    requires OneHolder(s) && ThreadOf(s, c).InCoroutine?
    ensures OneHolder(TestStep(s, c, id))
  {
    Unmoved(s, TestStep(s, c, id));
  }

  lemma CqeStored(s: State, id: OpId)
    requires OneHolder(s) && Op(s, id).InFlight? && ThreadOf(s, Op(s, id).ctx).AtLoop?
    ensures OneHolder(StoreStep(s, id))
  {
    Unmoved(s, StoreStep(s, id));
  }

  /** Two handovers in one step: the caller into the callee's promise, then the callee onto the thread. */
  lemma TaskAwaited(s: State, c: Ctx, i: nat)
    requires Inv(s) && ThreadOf(s, c).InCoroutine? && i < |s.tasks|
    ensures OneHolder(AwaitTaskStep(s, c, i))
  {
    var f, x := ThreadOf(s, c).h, s.tasks[i];
    FoundIn(s, Running(c), f);
    TaskAt(s, i);
    assert CallerOk(s, x);
    var s1 := s.(callers := s.callers[x := f], threads := s.threads[c := AtLoop], place := s.place[f := AsCaller(x)]);
    CallerNoted(s, s1, c, f, x);
    var s2 := s1.(tasks := RemoveAt(s.tasks, i), threads := s1.threads[c := InCoroutine(x)], place := s1.place[x := Running(c)]);
    CalleeStarts(s1, s2, c, i);
    assert s2.threads == s.threads[c := InCoroutine(x)];
  }

  lemma CallerNoted(s: State, s': State, c: Ctx, f: Handle, x: Handle)
    requires OneHolder(s) && Runs(s, c) == Some(f) && At(s, f) == Running(c) && Caller(s, x).None?
    requires s' == s.(callers := s.callers[x := f], threads := s.threads[c := AtLoop], place := s.place[f := AsCaller(x)])
    ensures OneHolder(s')
  {
    var from, to := Running(c), AsCaller(x);
    forall p, h ensures Holds(s', p, h) + One(h == f && p == from) == Holds(s, p, h) + One(h == f && p == to) {
      NotedHolds(s, s', c, f, x, p, h);
    }
  }

  lemma NotedHolds(s: State, s': State, c: Ctx, f: Handle, x: Handle, p: Place, h: Handle)
    requires Runs(s, c) == Some(f) && Caller(s, x).None?
    requires s' == s.(callers := s.callers[x := f], threads := s.threads[c := AtLoop], place := s.place[f := AsCaller(x)])
    ensures Holds(s', p, h) + One(h == f && p == Running(c)) == Holds(s, p, h) + One(h == f && p == AsCaller(x))
  {
  }

  lemma CalleeStarts(s: State, s': State, c: Ctx, i: nat)
    requires OneHolder(s) && Runs(s, c).None? && i < |s.tasks|
    requires
      var x := s.tasks[i];
      s' == s.(tasks := RemoveAt(s.tasks, i), threads := s.threads[c := InCoroutine(x)], place := s.place[x := Running(c)])
    ensures OneHolder(s')
  {
    var x := s.tasks[i];
    TaskAt(s, i);
    forall p, h ensures Holds(s', p, h) + One(h == x && p == InTask) == Holds(s, p, h) + One(h == x && p == Running(c)) {
      StartHolds(s, s', c, i, p, h);
    }
  }

  lemma StartHolds(s: State, s': State, c: Ctx, i: nat, p: Place, h: Handle)
    requires Runs(s, c).None? && i < |s.tasks|
    requires
      var x := s.tasks[i];
      s' == s.(tasks := RemoveAt(s.tasks, i), threads := s.threads[c := InCoroutine(x)], place := s.place[x := Running(c)])
    ensures
      var x := s.tasks[i];
      Holds(s', p, h) + One(h == x && p == InTask) == Holds(s, p, h) + One(h == x && p == Running(c))
  {
    CountRemoveAt(s.tasks, i, h);
  }

  lemma Finished(s: State, c: Ctx)
    requires OneHolder(s) && ThreadOf(s, c).InCoroutine?
    ensures OneHolder(FinishStep(s, c))
  {
    var f := ThreadOf(s, c).h;
    FoundIn(s, Running(c), f);
    var s1 := s.(threads := s.threads[c := AtLoop], place := s.place[f := Gone]);
    FrameDies(s, s1, c, f);
    if Caller(s, f).Some? {
      var g := Caller(s, f).value;
      FoundIn(s, AsCaller(f), g);
      var s2 := s1.(threads := s1.threads[c := InCoroutine(g)], callers := s.callers - {f}, place := s1.place[g := Running(c)]);
      CallerResumes(s1, s2, c, f, g);
      assert s2.threads == s.threads[c := InCoroutine(g)];
    }
  }

  lemma FrameDies(s: State, s': State, c: Ctx, f: Handle)
    requires OneHolder(s) && Runs(s, c) == Some(f) && At(s, f) == Running(c)
    requires s' == s.(threads := s.threads[c := AtLoop], place := s.place[f := Gone])
    ensures OneHolder(s')
  {
    forall p, h ensures Holds(s', p, h) + One(h == f && p == Running(c)) == Holds(s, p, h) {
      DieHolds(s, s', c, f, p, h);
    }
  }

  lemma DieHolds(s: State, s': State, c: Ctx, f: Handle, p: Place, h: Handle)
    requires Runs(s, c) == Some(f) && s' == s.(threads := s.threads[c := AtLoop], place := s.place[f := Gone])
    ensures Holds(s', p, h) + One(h == f && p == Running(c)) == Holds(s, p, h)
  {
  }

  lemma CallerResumes(s: State, s': State, c: Ctx, f: Handle, g: Handle)
    requires OneHolder(s) && Runs(s, c).None? && Caller(s, f) == Some(g) && At(s, g) == AsCaller(f)
    requires s' == s.(threads := s.threads[c := InCoroutine(g)], callers := s.callers - {f}, place := s.place[g := Running(c)])
    ensures OneHolder(s')
  {
    var from, to := AsCaller(f), Running(c);
    forall p, h ensures Holds(s', p, h) + One(h == g && p == from) == Holds(s, p, h) + One(h == g && p == to) {
      CallerHolds(s, s', c, f, g, p, h);
    }
  }

  lemma CallerHolds(s: State, s': State, c: Ctx, f: Handle, g: Handle, p: Place, h: Handle)
    requires Runs(s, c).None? && Caller(s, f) == Some(g)
    requires s' == s.(threads := s.threads[c := InCoroutine(g)], callers := s.callers - {f}, place := s.place[g := Running(c)])
    ensures Holds(s', p, h) + One(h == g && p == AsCaller(f)) == Holds(s, p, h) + One(h == g && p == Running(c))
  {
  }

  // ---------------------------------------------------------------- the links

  /** The coroutine that a thread executes is there. */
  lemma RunnerAt(s: State, c: Ctx)
    requires OneHolder(s)
    ensures Runs(s, c).Some? ==> At(s, Runs(s, c).value) == Running(c)
  {
    if Runs(s, c).Some? { FoundIn(s, Running(c), Runs(s, c).value); }
  }

  lemma CallerAt(s: State, f: Handle)
    requires OneHolder(s)
    ensures Caller(s, f).Some? ==> At(s, Caller(s, f).value) == AsCaller(f)
  {
    if Caller(s, f).Some? { FoundIn(s, AsCaller(f), Caller(s, f).value); }
  }

  lemma WaiterAt(s: State, id: OpId)
    requires OneHolder(s)
    ensures Waiter(Op(s, id)).Some? ==> At(s, Waiter(Op(s, id)).value) == InOperation(id)
  {
    if Waiter(Op(s, id)).Some? { FoundIn(s, InOperation(id), Waiter(Op(s, id)).value); }
  }

  /** The coroutines that a step moves are where it takes them from. */
  ghost predicate Found(s: State, act: Act)
    requires Enabled(s, act)
  {
    match act
    case Drop(i) => At(s, s.tasks[i]) == InTask
    case CoSpawn(i, c) => At(s, s.tasks[i]) == InTask
    case AwaitTask(c, i) => At(s, ThreadOf(s, c).h) == Running(c) && At(s, s.tasks[i]) == InTask
    case Finish(c) =>
      var f := ThreadOf(s, c).h;
      At(s, f) == Running(c) && (Caller(s, f).Some? ==> At(s, Caller(s, f).value) == AsCaller(f))
    case SwitchTo(c, _) => At(s, ThreadOf(s, c).h) == Running(c)
    case Issue(c, _, _) => At(s, ThreadOf(s, c).h) == Running(c)
    case TestReady(c, id) => At(s, ThreadOf(s, c).h) == Running(c) && Waiter(Op(s, id)).None? && Latecomer(Op(s, id)).None?
    case Suspend(c) => At(s, ThreadOf(s, c).h) == Running(c)
    case Pull(c) => Ring(s, c) != [] ==> At(s, Ring(s, c)[0]) == InRing(c)
    case ResumeFront(c) => At(s, Queue(s, c)[0]) == InQueue(c)
    case Wake(c) =>
      var id := ThreadOf(s, c).id;
      Waiter(Op(s, id)).Some? ==> At(s, Waiter(Op(s, id)).value) == InOperation(id)
    case _ => true
  }

  lemma Finds(s: State, act: Act)
    requires Inv(s) && Enabled(s, act)
    ensures Found(s, act)
  {
    match act
    case Drop(i) => TaskAt(s, i);
    case CoSpawn(i, _) => TaskAt(s, i);
    case AwaitTask(c, i) => TaskAt(s, i); RunnerAt(s, c);
    case Finish(c) => RunnerAt(s, c); CallerAt(s, ThreadOf(s, c).h);
    case SwitchTo(c, _) => RunnerAt(s, c);
    case Issue(c, _, _) => RunnerAt(s, c);
    case TestReady(c, id) => RunnerAt(s, c); OwnerRuns(s, id, c);
    case Suspend(c) => RunnerAt(s, c);
    case Pull(c) => if Ring(s, c) != [] { FoundIn(s, InRing(c), Ring(s, c)[0]); }
    case ResumeFront(c) => FoundIn(s, InQueue(c), Queue(s, c)[0]);
    case Wake(c) => WaiterAt(s, ThreadOf(s, c).id);
    case _ =>
  }

  /** The coroutine of an operation is not in it while it runs. */
  lemma OwnerRuns(s: State, id: OpId, c: Ctx)
    requires OneHolder(s) && OperationOk(s, id) && !Op(s, id).Unused? && Runs(s, c) == Some(Op(s, id).owner)
    ensures Waiter(Op(s, id)).None? && Latecomer(Op(s, id)).None?
  {
    var f := Op(s, id).owner;
    FoundIn(s, Running(c), f);
    assert Holds(s, InOperation(id), f) == 0 && Holds(s, HangsOn(id), f) == 0;
  }

  lemma CallerKept(s: State, act: Act, h: Handle)
    requires Enabled(s, act) && Found(s, act) && CallerOk(s, h)
    ensures CallerOk(Stepped(s, act), h)
  {
    if ByCoroutine(act) { CallerKeptByCoroutine(s, act, h); }
  }

  lemma CallerKeptByCoroutine(s: State, act: Act, h: Handle)
    requires Enabled(s, act) && ByCoroutine(act) && Found(s, act) && CallerOk(s, h)
    ensures CallerOk(Stepped(s, act), h)
  {
  }

  lemma RingKept(s: State, act: Act, c: Ctx)
    requires Enabled(s, act) && |Ring(s, c)| <= RING_CAPACITY
    ensures |Ring(Stepped(s, act), c)| <= RING_CAPACITY
  {
  }

  predicate ByCoroutine(act: Act) {
    act.AwaitTask? || act.Finish? || act.Issue? || act.SwitchTo? || act.TestReady? || act.Suspend?
  }

  predicate ByLoop(act: Act) { act.Pull? || act.ResumeFront? || act.Store? || act.Wake? }

  lemma OperationKept(s: State, act: Act, id: OpId)
    requires Enabled(s, act) && Found(s, act) && OperationOk(s, id)
    requires act.Wake? || act.Suspend? ==> ThreadOk(s, act.c)
    ensures OperationOk(Stepped(s, act), id)
  {
    if ByCoroutine(act) { OperationKeptByCoroutine(s, act, id); }
  }

  lemma OperationKeptByCoroutine(s: State, act: Act, id: OpId)
    requires Enabled(s, act) && ByCoroutine(act) && Found(s, act) && OperationOk(s, id)
    requires act.Suspend? ==> ThreadOk(s, act.c)
    ensures OperationOk(Stepped(s, act), id)
  {
    if act.Finish? || act.AwaitTask? { OperationKeptByTask(s, act, id); }
  }

  lemma OperationKeptByTask(s: State, act: Act, id: OpId)
    requires Enabled(s, act) && (act.Finish? || act.AwaitTask?) && Found(s, act) && OperationOk(s, id)
    ensures OperationOk(Stepped(s, act), id)
  {
  }

  lemma ThreadKept(s: State, act: Act, d: Ctx)
    requires Enabled(s, act) && Found(s, act) && ThreadOk(s, d)
    requires act.Wake? || act.Suspend? ==> ThreadOk(s, act.c)
    requires ByCoroutine(act) && d != act.c ==> Runs(s, d) != Runs(s, act.c)
    requires act.TestReady? ==> OperationOk(s, act.id)
    ensures ThreadOk(Stepped(s, act), d)
  {
    if ByCoroutine(act) { ThreadKeptByCoroutine(s, act, d); }
  }

  lemma ThreadKeptByCoroutine(s: State, act: Act, d: Ctx)
    requires Enabled(s, act) && ByCoroutine(act) && Found(s, act) && ThreadOk(s, d)
    requires act.Suspend? ==> ThreadOk(s, act.c)
    requires d != act.c ==> Runs(s, d) != Runs(s, act.c)
    requires act.TestReady? ==> OperationOk(s, act.id)
    ensures ThreadOk(Stepped(s, act), d)
  {
  }

  /** No two contexts run the same coroutine. */
  lemma RunsOnce(s: State, c: Ctx, d: Ctx)
    requires OneHolder(s) && Runs(s, c).Some?
    ensures d != c ==> Runs(s, d) != Runs(s, c)
  {
    RunnerAt(s, c);
    RunnerAt(s, d);
  }

  lemma LinksKept(s: State, act: Act)
    requires Inv(s) && Enabled(s, act)
    ensures Links(Stepped(s, act))
  {
    var s' := Stepped(s, act);
    Finds(s, act);
    assert act.Wake? || act.Suspend? ==> ThreadOk(s, act.c);
    assert act.TestReady? ==> OperationOk(s, act.id);
    forall h ensures CallerOk(s', h) { assert CallerOk(s, h); CallerKept(s, act, h); }
    forall id ensures OperationOk(s', id) { assert OperationOk(s, id); OperationKept(s, act, id); }
    forall c ensures |Ring(s', c)| <= RING_CAPACITY { assert |Ring(s, c)| <= RING_CAPACITY; RingKept(s, act, c); }
    forall d ensures ThreadOk(s', d) {
      assert ThreadOk(s, d);
      if ByCoroutine(act) { RunsOnce(s, act.c, d); }
      ThreadKept(s, act, d);
    }
  }

  lemma HoldersKept(s: State, act: Act)
    requires Inv(s) && Enabled(s, act)
    ensures OneHolder(Stepped(s, act))
  {
    match act
    case Make(h) => Made(s, h);
    case Drop(i) => Dropped(s, i);
    case CoSpawn(i, c) => CoSpawned(s, i, c);
    case AwaitTask(c, i) => TaskAwaited(s, c, i);
    case Finish(c) => Finished(s, c);
    case Issue(c, id, sqe) => Issued(s, c, id, sqe);
    case SwitchTo(c, d) => Switched(s, c, d);
    case TestReady(c, id) => Tested(s, c, id);
    case Suspend(c) => assert ThreadOk(s, c); Suspended(s, c);
    case Pull(c) => Pulled(s, c);
    case ResumeFront(c) => FrontResumed(s, c);
    case Store(id) => CqeStored(s, id);
    case Wake(c) => Woken(s, c);
  }
}
