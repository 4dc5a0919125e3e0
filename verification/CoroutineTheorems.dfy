/**
 What follows for the coroutines of any run: each is held in exactly one place, none is used after its destruction, and
 when a wake-up can be lost.
 */
module CoroutineTheorems {
  import opened Lists
  import opened CoroutineOwnership

  lemma EveryStepKeeps(s: State, act: Act)
    requires Inv(s) && Enabled(s, act)
    ensures Inv(Stepped(s, act))
  {
    HoldersKept(s, act);
    LinksKept(s, act);
  }

  // ---------------------------------------------------------------- runs

  function Start(locked: set<Ctx>): State {
    State([], map[], map c | c in locked :: SwitchRing([], None, true), map[], map[], map[], map[])
  }

  ghost predicate Run(ss: seq<State>, acts: seq<Act>) {
    && |ss| == |acts| + 1 && (exists locked :: ss[0] == Start(locked))
    && forall i {:trigger acts[i]} :: 0 <= i < |acts| ==> Enabled(ss[i], acts[i]) && ss[i + 1] == Stepped(ss[i], acts[i])
  }

  lemma {:induction false} EveryStateInv(ss: seq<State>, acts: seq<Act>, i: nat)
    requires Run(ss, acts) && i < |ss|
    ensures Inv(ss[i])
  {
    if i == 0 {
      forall p, h ensures Holds(ss[0], p, h) == 0 {}
    } else {
      EveryStateInv(ss, acts, i - 1);
      EveryStepKeeps(ss[i - 1], acts[i - 1]);
    }
  }

  /** The frame exists: its coroutine function was called at that address, and nobody has destroyed it since. */
  ghost predicate Alive(ss: seq<State>, acts: seq<Act>, i: nat, h: Handle)
    requires Run(ss, acts) && i < |ss|
  {
    i > 0 && (acts[i - 1] == Make(h) || (Alive(ss, acts, i - 1, h) && !Destroys(ss[i - 1], acts[i - 1], h)))
  }

  /** This step destroys the frame: a Task that was never started dies, or a coroutine ends. */
  predicate Destroys(s: State, act: Act, h: Handle) {
    match act
    case Drop(i) => i < |s.tasks| && s.tasks[i] == h
    case Finish(c) => Runs(s, c) == Some(h)
    case _ => false
  }

  /** This step resumes the coroutine. */
  predicate Resumes(s: State, act: Act, h: Handle) {
    match act
    case AwaitTask(_, i) => i < |s.tasks| && s.tasks[i] == h
    case Finish(c) => Runs(s, c).Some? && Caller(s, Runs(s, c).value) == Some(h)
    case ResumeFront(c) => Queue(s, c) != [] && Queue(s, c)[0] == h
    case Wake(c) => ThreadOf(s, c).InReap? && Waiter(Op(s, ThreadOf(s, c).id)) == Some(h)
    case _ => false
  }

  predicate GoneRight(s: State, act: Act, h: Handle)
    requires Enabled(s, act)
  {
    !At(Stepped(s, act), h).Gone? <==> act == Make(h) || (!At(s, h).Gone? && !Destroys(s, act, h))
  }

  lemma GoneFollows(s: State, act: Act, h: Handle)
    requires Enabled(s, act) && Found(s, act)
    ensures GoneRight(s, act, h)
  {
    if ByCoroutine(act) { GoneInCoroutine(s, act, h); }
  }

  lemma GoneInCoroutine(s: State, act: Act, h: Handle)
    requires Enabled(s, act) && ByCoroutine(act) && Found(s, act)
    ensures GoneRight(s, act, h)
  {
    if act.Finish? || act.AwaitTask? { GoneInTask(s, act, h); }
  }

  lemma GoneInTask(s: State, act: Act, h: Handle)
    requires Enabled(s, act) && (act.Finish? || act.AwaitTask?) && Found(s, act)
    ensures GoneRight(s, act, h)
  {
  }

  lemma {:induction false} AliveIsSomewhere(ss: seq<State>, acts: seq<Act>, i: nat, h: Handle)
    requires Run(ss, acts) && i < |ss|
    ensures Alive(ss, acts, i, h) <==> !At(ss[i], h).Gone?
  {
    if i > 0 {
      AliveIsSomewhere(ss, acts, i - 1, h);
      EveryStateInv(ss, acts, i - 1);
      Finds(ss[i - 1], acts[i - 1]);
      GoneFollows(ss[i - 1], acts[i - 1], h);
    }
  }

  /**
   At every moment of every run, a live coroutine is held once, in exactly one place: it is running, or it is
   suspended and held by an unstarted Task, one context's queue, one switch ring, one operation or one callee. The
   operation is in flight, unless the handle came too late; when that can happen is the subject of `LostIff`. A
   destroyed coroutine is held nowhere.
   */
  lemma ExactlyOneHolder(ss: seq<State>, acts: seq<Act>, i: nat, h: Handle)
    requires Run(ss, acts) && i < |ss|
    ensures Alive(ss, acts, i, h) ==>
      exists p {:trigger Holds(ss[i], p, h)} :: Holds(ss[i], p, h) == 1 && forall q {:trigger Holds(ss[i], q, h)} :: q != p ==> Holds(ss[i], q, h) == 0
    ensures !Alive(ss, acts, i, h) ==> forall p {:trigger Holds(ss[i], p, h)} :: Holds(ss[i], p, h) == 0
  {
    EveryStateInv(ss, acts, i);
    AliveIsSomewhere(ss, acts, i, h);
    assert Holds(ss[i], At(ss[i], h), h) == One(!At(ss[i], h).Gone?);
  }

  lemma TouchedIsThere(s: State, act: Act, h: Handle)
    requires Enabled(s, act) && Found(s, act) && (Resumes(s, act, h) || Destroys(s, act, h))
    ensures !At(s, h).Gone? && (Resumes(s, act, h) ==> !At(s, h).Running?)
    ensures Destroys(s, act, h) && At(s, h).Running? ==> act == Finish(At(s, h).c)
  {
  }

  /** No step resumes or destroys a coroutine that is not alive, nor one that some context is running elsewhere. */
  lemma NoUseAfterDestruction(ss: seq<State>, acts: seq<Act>, i: nat, h: Handle)
    requires Run(ss, acts) && i < |acts|
    requires Resumes(ss[i], acts[i], h) || Destroys(ss[i], acts[i], h)
    ensures Alive(ss, acts, i, h)
    ensures Resumes(ss[i], acts[i], h) ==> forall c :: Runs(ss[i], c) != Some(h)
    ensures Destroys(ss[i], acts[i], h) ==> forall c :: Runs(ss[i], c) == Some(h) ==> acts[i] == Finish(c)
  {
    EveryStateInv(ss, acts, i);
    AliveIsSomewhere(ss, acts, i, h);
    Finds(ss[i], acts[i]);
    TouchedIsThere(ss[i], acts[i], h);
    forall c ensures Runs(ss[i], c) == Some(h) ==> At(ss[i], h) == Running(c) {
      RunnerAt(ss[i], c);
    }
  }

  /**
   A switch hands the coroutine over: it leaves its thread, is the last in the other context's ring and nowhere else.
   With that ring full nothing happens: the coroutine goes on running where it was, and is in no ring.
   */
  lemma SwitchHandsOver(ss: seq<State>, acts: seq<Act>, i: nat, c: Ctx, d: Ctx)
    requires Run(ss, acts) && i < |acts| && acts[i] == SwitchTo(c, d)
    ensures
      var s, s', f := ss[i], ss[i + 1], Runs(ss[i], c).value;
      if |Ring(s, d)| < RING_CAPACITY then
        && Ring(s', d) == Ring(s, d) + [f] && Runs(s', c).None?
        && (forall e {:trigger Ring(s', e)} :: f in Ring(s', e) ==> e == d) && forall e {:trigger Runs(s', e)} :: Runs(s', e) != Some(f)
      else
        && s' == s.(rings := s'.rings) && (forall e {:trigger Ring(s', e)} :: Ring(s', e) == Ring(s, e))
        && forall e {:trigger Ring(s, e)} :: f !in Ring(s, e)
  {
    var s, s', f := ss[i], ss[i + 1], Runs(ss[i], c).value;
    EveryStateInv(ss, acts, i);
    EveryStateInv(ss, acts, i + 1);
    FoundIn(s, Running(c), f);
    forall e ensures f in Ring(s, e) ==> Holds(s, InRing(e), f) > 0 {
      CountIn(Ring(s, e), f);
    }
    if |Ring(s, d)| < RING_CAPACITY {
      forall e | f in Ring(s', e) ensures e == d {
        CountIn(Ring(s', e), f);
        FoundIn(s', InRing(e), f);
      }
      forall e ensures Runs(s', e) != Some(f) {
        if Runs(s', e) == Some(f) { FoundIn(s', Running(e), f); }
      }
    }
  }

  lemma {:induction false} PusherStays(ss: seq<State>, acts: seq<Act>, i: nat, j: nat, d: Ctx)
    requires Run(ss, acts) && i <= j < |ss|
    ensures RingOf(ss[j], d).locked == RingOf(ss[i], d).locked
    ensures !RingOf(ss[i], d).locked && RingOf(ss[i], d).pusher.Some? ==> RingOf(ss[j], d).pusher == RingOf(ss[i], d).pusher
    decreases j
  {
    if i < j {
      PusherStays(ss, acts, i, j - 1, d);
      assert Enabled(ss[j - 1], acts[j - 1]);
      RingOfFollows(ss[j - 1], acts[j - 1], d);
    }
  }

  lemma RingOfFollows(s: State, act: Act, d: Ctx)
    requires Enabled(s, act)
    ensures RingOf(Stepped(s, act), d).locked == RingOf(s, d).locked
    ensures !RingOf(s, d).locked && RingOf(s, d).pusher.Some? ==> RingOf(Stepped(s, act), d).pusher == RingOf(s, d).pusher
  {
  }

  /** A ring without a lock has one producer in the whole run, as a ring for a single producer needs. */
  lemma SingleProducer(ss: seq<State>, acts: seq<Act>, i: nat, j: nat, c: Ctx, e: Ctx, d: Ctx)
    requires Run(ss, acts) && i < j < |acts| && acts[i] == SwitchTo(c, d) && acts[j] == SwitchTo(e, d)
    requires !RingOf(ss[i], d).locked
    ensures c == e
  {
    assert Enabled(ss[i], acts[i]) && Enabled(ss[j], acts[j]);
    assert RingOf(ss[i + 1], d).pusher == Some(c) && !RingOf(ss[i + 1], d).locked;
    PusherStays(ss, acts, i + 1, j, d);
  }

  // ---------------------------------------------------------------- lost wake-ups

  /** These steps can be taken from here, one after the other. */
  ghost predicate Legal(s: State, acts: seq<Act>)
    decreases |acts|
  {
    acts == [] || (Enabled(s, acts[0]) && Legal(Stepped(s, acts[0]), acts[1..]))
  }

  ghost function AfterAll(s: State, acts: seq<Act>): State
    requires Legal(s, acts)
    decreases |acts|
  {
    if acts == [] then s else AfterAll(Stepped(s, acts[0]), acts[1..])
  }

  /** Context c's coroutine is inside a `co_await` on an operation that has not completed. */
  predicate InTheMiddle(s: State, c: Ctx) {
    ThreadOf(s, c).InAwait? && Op(s, ThreadOf(s, c).id).InFlight?
  }

  /** Context c's coroutine hangs once it has stored its handle. */
  ghost predicate AboutToHang(s: State, c: Ctx) {
    && Enabled(s, Suspend(c))
    && Holds(Stepped(s, Suspend(c)), HangsOn(ThreadOf(s, c).id), ThreadOf(s, c).h) == 1
  }

  /** These steps of others overtake context c between its two accesses, and its coroutine's wake-up is lost. */
  ghost predicate Overtake(s: State, c: Ctx, acts: seq<Act>) {
    Legal(s, acts) && Suspend(c) !in acts && AboutToHang(AfterAll(s, acts), c)
  }

  /** A coroutine that hangs does so for ever: its only holder is an operation that no step looks at. */
  lemma {:induction false} HangsForEver(s: State, acts: seq<Act>, id: OpId, h: Handle)
    requires Inv(s) && Holds(s, HangsOn(id), h) == 1 && Legal(s, acts)
    ensures Inv(AfterAll(s, acts)) && Holds(AfterAll(s, acts), HangsOn(id), h) == 1
    decreases |acts|
  {
    if acts != [] {
      EveryStepKeeps(s, acts[0]);
      StillHangs(s, acts[0], id, h);
      HangsForEver(Stepped(s, acts[0]), acts[1..], id, h);
    }
  }

  lemma StillHangs(s: State, act: Act, id: OpId, h: Handle)
    requires Inv(s) && Enabled(s, act) && Holds(s, HangsOn(id), h) == 1
    ensures Holds(Stepped(s, act), HangsOn(id), h) == 1
  {
    if act.Suspend? { assert ThreadOk(s, act.c); }
  }

  lemma AboutToHangIff(s: State, c: Ctx)
    requires Inv(s) && ThreadOf(s, c).InAwait?
    ensures AboutToHang(s, c) <==> !InTheMiddle(s, c)
  {
    assert ThreadOk(s, c);
  }

  /** Its own loop cannot overtake a coroutine. */
  lemma {:induction false} HomeIsNotOvertaken(s: State, c: Ctx, acts: seq<Act>)
    requires Inv(s) && InTheMiddle(s, c) && Op(s, ThreadOf(s, c).id).ctx == c
    requires Legal(s, acts) && Suspend(c) !in acts
    ensures !AboutToHang(AfterAll(s, acts), c)
    decreases |acts|
  {
    if acts == [] {
      AboutToHangIff(s, c);
    } else {
      StaysInTheMiddle(s, c, acts[0]);
      EveryStepKeeps(s, acts[0]);
      HomeIsNotOvertaken(Stepped(s, acts[0]), c, acts[1..]);
    }
  }

  lemma StaysInTheMiddle(s: State, c: Ctx, act: Act)
    requires Inv(s) && InTheMiddle(s, c) && Op(s, ThreadOf(s, c).id).ctx == c && Enabled(s, act) && act != Suspend(c)
    ensures
      var s' := Stepped(s, act);
      ThreadOf(s', c) == ThreadOf(s, c) && InTheMiddle(s', c) && Op(s', ThreadOf(s', c).id).ctx == c
  {
    if act.Wake? || act.Suspend? { assert ThreadOk(s, act.c); }
    MiddleKept(s, c, act);
  }

  lemma MiddleKept(s: State, c: Ctx, act: Act)
    requires InTheMiddle(s, c) && Op(s, ThreadOf(s, c).id).ctx == c && Enabled(s, act) && act != Suspend(c)
    requires act.Wake? || act.Suspend? ==> ThreadOk(s, act.c)
    ensures
      var s' := Stepped(s, act);
      ThreadOf(s', c) == ThreadOf(s, c) && InTheMiddle(s', c) && Op(s', ThreadOf(s', c).id).ctx == c
  {
    if ByCoroutine(act) { MiddleKeptByCoroutine(s, c, act); }
  }

  lemma MiddleKeptByCoroutine(s: State, c: Ctx, act: Act)
    requires InTheMiddle(s, c) && Op(s, ThreadOf(s, c).id).ctx == c && Enabled(s, act) && act != Suspend(c) && ByCoroutine(act)
    ensures
      var s' := Stepped(s, act);
      ThreadOf(s', c) == ThreadOf(s, c) && InTheMiddle(s', c) && Op(s', ThreadOf(s', c).id).ctx == c
  {
  }

  lemma OneFirst(s: State, c: Ctx, act: Act, acts: seq<Act>)
    requires Enabled(s, act) && act != Suspend(c) && Overtake(Stepped(s, act), c, acts)
    ensures Overtake(s, c, [act] + acts)
  {
    assert ([act] + acts)[1..] == acts;
  }

  lemma {:induction false} UpperBound(ids: set<OpId>) returns (k: OpId)
    ensures forall id :: id in ids ==> id < k
    decreases |ids|
  {
    k := 0;
    if ids != {} {
      var id :| id in ids;
      var m := UpperBound(ids - {id});
      k := if id < m then m else id + 1;
      forall x | x in ids ensures x < k {
        assert x == id || x in ids - {id};
      }
    }
  }

  /** How much another context has to do before its loop has read `h`. */
  function ToGo(s: State, id: OpId): nat
    requires Op(s, id).InFlight?
  {
    if !Op(s, id).stage.Pending? then 1
    else
      match ThreadOf(s, Op(s, id).ctx)
      case AtLoop => 2
      case InAwait(_, _) => 3
      case InCoroutine(_) => 4
      case InReap(_) => 5
  }

  /** The step by which the other context d comes nearer to reading `h`, when it is not in a coroutine. */
  function Nearer(s: State, id: OpId): Act
    requires Op(s, id).InFlight?
  {
    var d := Op(s, id).ctx;
    match ThreadOf(s, d)
    case AtLoop => Store(id)
    case InReap(_) => Wake(d)
    case _ => Suspend(d)
  }

  lemma ComesNearer(s: State, c: Ctx)
    requires Inv(s) && InTheMiddle(s, c)
    requires
      var o := Op(s, ThreadOf(s, c).id);
      o.ctx != c && !ThreadOf(s, o.ctx).InCoroutine?
    ensures
      var id := ThreadOf(s, c).id;
      var act := Nearer(s, id);
      && Enabled(s, act) && act != Suspend(c) && ThreadOf(Stepped(s, act), c) == ThreadOf(s, c)
      && (InTheMiddle(Stepped(s, act), c) ==>
            Op(Stepped(s, act), id).ctx == Op(s, id).ctx && ToGo(Stepped(s, act), id) < ToGo(s, id))
  {
    var id := ThreadOf(s, c).id;
    var d := Op(s, id).ctx;
    assert ThreadOk(s, c) && ThreadOk(s, d) && OperationOk(s, id);
    RunsOnce(s, c, d);
  }

  /** A context that is in a coroutine gets into an await when the coroutine issues an operation and awaits it. */
  lemma Issues(s: State, c: Ctx, d: Ctx, k: OpId)
    requires Inv(s) && InTheMiddle(s, c) && d != c && ThreadOf(s, d).InCoroutine? && k !in s.ops
    ensures Enabled(s, Issue(d, k, true))
    ensures
      var s', id := Stepped(s, Issue(d, k, true)), ThreadOf(s, c).id;
      && Enabled(s', TestReady(d, k))
      && var t := Stepped(s', TestReady(d, k));
      ThreadOf(t, c) == ThreadOf(s, c) && Op(t, id) == Op(s, id) && ThreadOf(t, d).InAwait?
  {
    forall e ensures ThreadOf(s, e).InAwait? ==> ThreadOf(s, e).id != k {
      assert ThreadOk(s, e);
    }
  }

  /** From another context, the loop can always overtake the coroutine. */
  lemma {:induction false} CanBeOvertaken(s: State, c: Ctx) returns (acts: seq<Act>)
    requires Inv(s) && InTheMiddle(s, c) && Op(s, ThreadOf(s, c).id).ctx != c
    ensures Overtake(s, c, acts)
    decreases ToGo(s, ThreadOf(s, c).id)
  {
    var id := ThreadOf(s, c).id;
    var d := Op(s, id).ctx;
    if ThreadOf(s, d).InCoroutine? {
      assert OperationOk(s, id);
      var k := UpperBound(s.ops.Keys);
      Issues(s, c, d, k);
      var s' := Stepped(s, Issue(d, k, true));
      EveryStepKeeps(s, Issue(d, k, true));
      EveryStepKeeps(s', TestReady(d, k));
      acts := CanBeOvertaken(Stepped(s', TestReady(d, k)), c);
      OneFirst(s', c, TestReady(d, k), acts);
      acts := [TestReady(d, k)] + acts;
      OneFirst(s, c, Issue(d, k, true), acts);
      acts := [Issue(d, k, true)] + acts;
    } else {
      var act := Nearer(s, id);
      ComesNearer(s, c);
      EveryStepKeeps(s, act);
      var s' := Stepped(s, act);
      if InTheMiddle(s', c) {
        acts := CanBeOvertaken(s', c);
      } else {
        AboutToHangIff(s', c);
        acts := [];
      }
      OneFirst(s, c, act, acts);
      acts := [act] + acts;
    }
  }

  /**
   A coroutine has found its operation unfinished and is about to store its handle. Its wake-up can be lost if and only
   if the operation was issued on another context than the one the coroutine runs on.
   */
  lemma LostIff(s: State, c: Ctx)
    requires Inv(s) && InTheMiddle(s, c)
    ensures (exists acts :: Overtake(s, c, acts)) <==> Op(s, ThreadOf(s, c).id).ctx != c
  {
    if Op(s, ThreadOf(s, c).id).ctx != c {
      var acts := CanBeOvertaken(s, c);
    } else {
      forall acts ensures !Overtake(s, c, acts) {
        if Legal(s, acts) && Suspend(c) !in acts {
          HomeIsNotOvertaken(s, c, acts);
        }
      }
    }
  }

  /** Operations that are in flight are awaited on the contexts they were issued on. */
  predicate AtHome(s: State, act: Act) {
    act.TestReady? && Op(s, act.id).InFlight? ==> Op(s, act.id).ctx == act.c
  }

  ghost predicate AllAtHome(ss: seq<State>, acts: seq<Act>)
    requires |ss| == |acts| + 1
  {
    forall i {:trigger acts[i]} :: 0 <= i < |acts| ==> AtHome(ss[i], acts[i])
  }

  predicate HomeThread(s: State, c: Ctx) {
    ThreadOf(s, c).InAwait? ==> InTheMiddle(s, c) && Op(s, ThreadOf(s, c).id).ctx == c
  }

  predicate HomeOp(s: State, id: OpId) {
    Latecomer(Op(s, id)).None? && (Op(s, id).InFlight? ==> !Op(s, id).stage.Seen?)
  }

  ghost predicate Home(s: State) {
    (forall c {:trigger HomeThread(s, c)} :: HomeThread(s, c)) && (forall id {:trigger HomeOp(s, id)} :: HomeOp(s, id))
  }

  lemma HomeStep(s: State, act: Act)
    requires Inv(s) && Enabled(s, act) && AtHome(s, act) && Home(s)
    ensures Home(Stepped(s, act))
  {
    forall c ensures HomeThread(Stepped(s, act), c) {
      assert HomeThread(s, c);
      HomeThreadKept(s, act, c);
    }
    forall id ensures HomeOp(Stepped(s, act), id) {
      assert HomeOp(s, id);
      HomeOpKept(s, act, id);
    }
  }

  lemma HomeThreadKept(s: State, act: Act, c: Ctx)
    requires Inv(s) && Enabled(s, act) && AtHome(s, act) && HomeThread(s, c)
    ensures HomeThread(Stepped(s, act), c)
  {
    if ThreadOf(s, c).InAwait? && act != Suspend(c) {
      StaysInTheMiddle(s, c, act);
    }
  }

  lemma HomeOpKept(s: State, act: Act, id: OpId)
    requires Inv(s) && Enabled(s, act) && AtHome(s, act) && HomeOp(s, id) && Home(s)
    ensures HomeOp(Stepped(s, act), id)
  {
    if act.Suspend? { assert HomeThread(s, act.c); }
    if act.TestReady? { assert OperationOk(s, act.id); }
  }

  lemma {:induction false} HomeThroughout(ss: seq<State>, acts: seq<Act>, i: nat)
    requires Run(ss, acts) && AllAtHome(ss, acts) && i < |ss|
    ensures Home(ss[i])
  {
    if i > 0 {
      HomeThroughout(ss, acts, i - 1);
      EveryStateInv(ss, acts, i - 1);
      assert AtHome(ss[i - 1], acts[i - 1]);
      HomeStep(ss[i - 1], acts[i - 1]);
    }
  }

  /**
   When every operation is awaited at home, no coroutine ever hangs, and no loop looks at an operation whose coroutine
   is gone.
   */
  lemma HomeIsSafe(ss: seq<State>, acts: seq<Act>, i: nat, id: OpId, h: Handle)
    requires Run(ss, acts) && AllAtHome(ss, acts) && i < |ss|
    ensures Holds(ss[i], HangsOn(id), h) == 0
    ensures Op(ss[i], id).InFlight? ==> Alive(ss, acts, i, Op(ss[i], id).owner)
  {
    HomeThroughout(ss, acts, i);
    EveryStateInv(ss, acts, i);
    assert HomeOp(ss[i], id) && OperationOk(ss[i], id);
    if Op(ss[i], id).InFlight? {
      AliveIsSomewhere(ss, acts, i, Op(ss[i], id).owner);
    }
  }

  /**
   Away from home, a coroutine can see the CQE and finish before the loop reads `h`, when it has nothing else in flight.
   */
  lemma FrameGoesFirst(s: State, c: Ctx, id: OpId)
    requires Inv(s) && Enabled(s, TestReady(c, id)) && Op(s, id).InFlight? && Op(s, id).stage.Stored?
    requires MayFinish(s.(ops := s.ops - {id}), Op(s, id).owner)
    ensures Op(s, id).ctx != c
    ensures Legal(s, [TestReady(c, id), Finish(c)])
    ensures
      var s' := AfterAll(s, [TestReady(c, id), Finish(c)]);
      Op(s', id).InFlight? && At(s', Op(s', id).owner).Gone? && ThreadOf(s', Op(s', id).ctx) == InReap(id)
  {
    assert OperationOk(s, id);
    var t := Stepped(s, TestReady(c, id));
    forall k ensures Op(t, k).InFlight? && Op(t, k).owner == Op(s, id).owner ==> Op(t, k).stage.Seen? {
      assert k != id ==> Op(s.(ops := s.ops - {id}), k) == Op(s, k);
    }
    RunnerAt(s, c);
    CallerAt(s, Op(s, id).owner);
    var acts := [TestReady(c, id), Finish(c)];
    assert acts[1..] == [Finish(c)] && acts[1..][1..] == [];
    assert AfterAll(s, acts) == AfterAll(t, acts[1..]) == Stepped(t, Finish(c));
  }
}
