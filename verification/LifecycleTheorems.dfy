/** What holds in every reachable state of an operation's life, and over whole runs. */
module LifecycleTheorems {
  import opened Lists
  import opened Lifecycle
  import opened LifecycleInvariant
  import opened LifecycleRuns

  ghost predicate Outstands(s: State, op: Op) {
    exists t :: Entries(s, t, op) == 1
  }

  /** A thread is inside `start` without an SQE, or inside `complete`, for this operation. */
  ghost predicate InHand(s: State, op: Op) {
    exists t {:trigger On(PcOf(s, t), op)} :: On(PcOf(s, t), op) && !HasSqe(PcOf(s, t))
  }

  /**
   At every moment of every run, a started operation is in exactly one place: its restart task is queued, one SQE or
   CQE of it is outstanding, one thread is working on it, or it has completed. Nowhere does it occur twice, and its
   receiver has got at most one signal.
   */
  lemma ExactlyOnePlace(ss: seq<State>, acts: seq<(Tid, Act)>, i: nat, op: Op)
    requires Run(ss, acts) && i < |ss|
    ensures
      var s := ss[i];
      && Count(s.tasks, op) <= 1 && |Rec(s, op).signals| <= 1
      && (forall t :: Entries(s, t, op) <= 1)
      && (forall t, u :: Entries(s, t, op) == 1 && Entries(s, u, op) == 1 ==> t == u)
    ensures
      var s := ss[i];
      !Rec(s, op).phase.Fresh? ==>
        One(Count(s.tasks, op) == 1) + One(Outstands(s, op)) + One(InHand(s, op)) + One(|Rec(s, op).signals| == 1) == 1
  {
    EveryStateInv(ss, acts, i);
    OnePlace(ss[i], op);
  }

  lemma OnePlace(s: State, op: Op)
    requires Placed(s) && TasksOk(s) && RingsOk(s) && TalliesOk(s)
    ensures Count(s.tasks, op) <= 1 && |Rec(s, op).signals| <= 1
    ensures forall t :: Entries(s, t, op) <= 1
    ensures forall t, u :: Entries(s, t, op) == 1 && Entries(s, u, op) == 1 ==> t == u
    ensures !Rec(s, op).phase.Fresh? ==>
      One(Count(s.tasks, op) == 1) + One(Outstands(s, op)) + One(InHand(s, op)) + One(|Rec(s, op).signals| == 1) == 1
  {
    var p := Rec(s, op).phase;
    forall t ensures Entries(s, t, op) == One(InRing(s, t, op)) {}
    forall t | On(PcOf(s, t), op) ensures p == Running(t) {}
    if p.InFlight? {
      assert Entries(s, p.t, op) == 1;
    } else if p.Running? {
      assert On(PcOf(s, p.t), op);
      if HasSqe(PcOf(s, p.t)) {
        assert Entries(s, p.t, op) == 1;
      }
    }
  }

  /** Thread t has reaped the operation's CQE but not yet looked into its bucket. */
  predicate BeforeTake(s: State, t: Tid, op: Op) {
    On(PcOf(s, t), op) && (PcOf(s, t).FinReset? || PcOf(s, t).FinTake?)
  }

  /**
   An operation found in a stopping bucket sits in its own bucket of its own local thread, once and nowhere else;
   its SQE or CQE is outstanding there or has just been reaped, a stop was requested, and it has not completed.
   */
  lemma QueuedMeansInFlight(ss: seq<State>, acts: seq<(Tid, Act)>, i: nat, t: Tid, b: nat, op: Op)
    requires Run(ss, acts) && i < |ss|
    requires op in BucketOf(ss[i], t, b)
    ensures
      var s := ss[i];
      && b == Home(op) && Links(s, t, op) == 1 && (forall u :: u != t ==> Links(s, u, op) == 0)
      && (Entries(s, t, op) == 1 || BeforeTake(s, t, op))
      && Rec(s, op).token in s.requested && Rec(s, op).signals == [] && Rec(s, op).cancels == 0
  {
    EveryStateInv(ss, acts, i);
    var s := ss[i];
    assert AtHome(BucketOf(s, t, b), b);
    PendingIsLinked(s, t, op);
    forall u ensures Links(s, u, op) == One(StopPending(Rec(s, op), u)) {}
    var r := Rec(s, op);
    assert Coherent(r, ThreadPc(s, r.phase)) && Tallied(s.requested, r);
    CountIn(BucketOf(s, t, b), op);
    assert Entries(s, t, op) == One(InRing(s, t, op));
    if r.phase.Running? {
      assert On(PcOf(s, r.phase.t), op);
      CountIn(Hand(PcOf(s, t)), op);
    }
  }

  /** `uninstall_stoppable_callback` has returned for this life of the operation. */
  predicate Uninstalled(s: State, op: Op) {
    var p := Rec(s, op).phase;
    p.Done? || (p.Running? && On(PcOf(s, p.t), op) && PcOf(s, p.t).FinSignal?)
  }

  /** This step acquires a cancel SQE for the operation. */
  predicate SendsCancel(s: State, t: Tid, act: Act, op: Op) {
    act.CancelSend? && PcOf(s, t).Cancelling? && PcOf(s, t).hand != [] && PcOf(s, t).hand[0] == op
  }

  /** How far a stop request has come: not made; pending; sent, or withdrawn by the uninstall. */
  function Stage(q: Request): nat {
    match q
    case NotMade => 0
    case Pending => 1
    case Sent => 2
    case Withdrawn => 2
  }

  /**
   What a step does to an operation within one life: it stays uninstalled, its cancels are counted, its stop request
   never goes back, and once that is made it stays with its thread.
   */
  predicate Follows(s: State, s': State, t: Tid, act: Act, op: Op) {
    var r, r' := Rec(s, op), Rec(s', op);
    && (Uninstalled(s, op) ==> Uninstalled(s', op))
    && r'.cancels == r.cancels + One(SendsCancel(s, t, act, op))
    && Stage(r.request) <= Stage(r'.request)
    && (!r.request.NotMade? ==> r'.local == r.local)
  }

  lemma FollowsUser(s: State, t: Tid, act: Act, op: Op)
    requires Enabled(s, t, act) && Known(s, t, act) && ByUser(act)
    requires act.Connect? ==> act.op != op
    ensures Follows(s, Stepped(s, t, act), t, act, op)
  {
  }

  lemma FollowsStopper(s: State, t: Tid, act: Act, op: Op)
    requires Enabled(s, t, act) && Known(s, t, act) && ByStopper(act)
    ensures Follows(s, Stepped(s, t, act), t, act, op)
  {
  }

  lemma FollowsBeginning(s: State, t: Tid, act: Act, op: Op)
    requires Enabled(s, t, act) && Known(s, t, act) && Beginning(act)
    ensures Follows(s, Stepped(s, t, act), t, act, op)
  {
  }

  lemma FollowsSpawn(s: State, t: Tid, act: Act, op: Op)
    requires Enabled(s, t, act) && Known(s, t, act) && act.Spawn?
    ensures Follows(s, Stepped(s, t, act), t, act, op)
  {
  }

  lemma FollowsInstallPlain(s: State, t: Tid, act: Act, op: Op)
    requires Enabled(s, t, act) && Known(s, t, act) && act.Install? && !Rec(s, PcOf(s, t).op).stoppable
    ensures Follows(s, Stepped(s, t, act), t, act, op)
  {
  }

  lemma FollowsInstallStoppable(s: State, t: Tid, act: Act, op: Op)
    requires Enabled(s, t, act) && Known(s, t, act) && act.Install? && Rec(s, PcOf(s, t).op).stoppable
    ensures Follows(s, Stepped(s, t, act), t, act, op)
  {
  }

  lemma FollowsInstall(s: State, t: Tid, act: Act, op: Op)
    requires Enabled(s, t, act) && Known(s, t, act) && act.Install?
    ensures Follows(s, Stepped(s, t, act), t, act, op)
  {
    if !Rec(s, PcOf(s, t).op).stoppable { FollowsInstallPlain(s, t, act, op); } else { FollowsInstallStoppable(s, t, act, op); }
  }

  lemma FollowsRing(s: State, t: Tid, act: Act, op: Op)
    requires Enabled(s, t, act) && Known(s, t, act) && OnRing(act)
    ensures Follows(s, Stepped(s, t, act), t, act, op)
  {
  }

  lemma FollowsReap(s: State, t: Tid, act: Act, op: Op)
    requires Enabled(s, t, act) && Known(s, t, act) && act.Reap?
    ensures Follows(s, Stepped(s, t, act), t, act, op)
  {
  }

  lemma FollowsReset(s: State, t: Tid, act: Act, op: Op)
    requires Enabled(s, t, act) && Known(s, t, act) && act.Reset?
    ensures Follows(s, Stepped(s, t, act), t, act, op)
  {
  }

  lemma FollowsTakeBucket(s: State, t: Tid, act: Act, op: Op)
    requires Enabled(s, t, act) && Known(s, t, act) && act.TakeBucket?
    ensures Follows(s, Stepped(s, t, act), t, act, op)
  {
  }

  lemma FollowsPutFrontFound(s: State, t: Tid, act: Act, op: Op)
    requires Enabled(s, t, act) && Known(s, t, act) && act.PutFront? && PcOf(s, t).op in PcOf(s, t).taken
    ensures Follows(s, Stepped(s, t, act), t, act, op)
  {
  }

  lemma FollowsPutFront(s: State, t: Tid, act: Act, op: Op)
    requires Enabled(s, t, act) && Known(s, t, act) && act.PutFront?
    ensures Follows(s, Stepped(s, t, act), t, act, op)
  {
    if PcOf(s, t).op in PcOf(s, t).taken { FollowsPutFrontFound(s, t, act, op); }
  }

  lemma FollowsReturning(s: State, t: Tid, act: Act, op: Op)
    requires Enabled(s, t, act) && Known(s, t, act) && Returning(act)
    ensures Follows(s, Stepped(s, t, act), t, act, op)
  {
  }

  lemma FollowsCancelSend(s: State, t: Tid, act: Act, op: Op)
    requires Enabled(s, t, act) && Known(s, t, act) && act.CancelSend?
    ensures Follows(s, Stepped(s, t, act), t, act, op)
  {
  }

  lemma FollowsCancelPass(s: State, t: Tid, act: Act, op: Op)
    requires Enabled(s, t, act) && Known(s, t, act) && InCancelPass(act) && !act.CancelSend?
    ensures Follows(s, Stepped(s, t, act), t, act, op)
  {
  }

  lemma StartFollows(s: State, t: Tid, act: Act, op: Op)
    requires Enabled(s, t, act) && Known(s, t, act) && InStart(act)
    ensures Follows(s, Stepped(s, t, act), t, act, op)
  {
    if Beginning(act) { FollowsBeginning(s, t, act, op); }
    else if act.Spawn? { FollowsSpawn(s, t, act, op); }
    else if act.Install? { FollowsInstall(s, t, act, op); }
  }

  lemma CompleteFollows(s: State, t: Tid, act: Act, op: Op)
    requires Enabled(s, t, act) && Known(s, t, act) && InComplete(act)
    ensures Follows(s, Stepped(s, t, act), t, act, op)
  {
    if act.Reap? { FollowsReap(s, t, act, op); }
    else if act.Reset? { FollowsReset(s, t, act, op); }
    else if act.TakeBucket? { FollowsTakeBucket(s, t, act, op); }
    else if act.PutFront? { FollowsPutFront(s, t, act, op); }
    else { FollowsReturning(s, t, act, op); }
  }

  lemma LoopFollows(s: State, t: Tid, act: Act, op: Op)
    requires Enabled(s, t, act) && Known(s, t, act) && (OnRing(act) || InCancelPass(act))
    ensures Follows(s, Stepped(s, t, act), t, act, op)
  {
    if OnRing(act) { FollowsRing(s, t, act, op); }
    else if act.CancelSend? { FollowsCancelSend(s, t, act, op); }
    else { FollowsCancelPass(s, t, act, op); }
  }

  lemma EveryStepFollows(s: State, t: Tid, act: Act, op: Op)
    requires Enabled(s, t, act) && Known(s, t, act)
    requires act.Connect? ==> act.op != op
    ensures Follows(s, Stepped(s, t, act), t, act, op)
  {
    if ByUser(act) { FollowsUser(s, t, act, op); }
    else if ByStopper(act) { FollowsStopper(s, t, act, op); }
    else if InStart(act) { StartFollows(s, t, act, op); }
    else if InComplete(act) { CompleteFollows(s, t, act, op); }
    else { LoopFollows(s, t, act, op); }
  }

  lemma UninstalledIsInNoBucket(s: State, op: Op, t: Tid, b: nat)
    requires Inv(s) && Uninstalled(s, op)
    ensures op !in BucketOf(s, t, b) && op !in Hand(PcOf(s, t))
  {
    assert Coherent(Rec(s, op), ThreadPc(s, Rec(s, op).phase));
    PendingIsLinked(s, t, op);
    assert AtHome(BucketOf(s, t, b), b);
  }

  /** Between two moments of a run, the address was not connected to a new operation. */
  ghost predicate SameLife(acts: seq<(Tid, Act)>, i: nat, j: nat, op: Op)
    requires i <= j <= |acts|
  {
    forall k {:trigger acts[k]} :: i <= k < j && acts[k].1.Connect? ==> acts[k].1.op != op
  }

  predicate FollowsAt(ss: seq<State>, acts: seq<(Tid, Act)>, k: int, op: Op)
    requires |ss| == |acts| + 1 && 0 <= k < |acts|
  {
    Follows(ss[k], ss[k + 1], acts[k].0, acts[k].1, op)
  }

  /** Every step of a stretch of states does to the operation what steps do within one life. */
  ghost predicate FollowsAlong(ss: seq<State>, acts: seq<(Tid, Act)>, i: nat, j: nat, op: Op)
    requires |ss| == |acts| + 1 && i <= j <= |acts|
  {
    forall k {:trigger FollowsAt(ss, acts, k, op)} :: i <= k < j ==> FollowsAt(ss, acts, k, op)
  }

  lemma RunFollows(ss: seq<State>, acts: seq<(Tid, Act)>, k: nat, op: Op)
    requires Run(ss, acts) && k < |acts| && (acts[k].1.Connect? ==> acts[k].1.op != op)
    ensures FollowsAt(ss, acts, k, op)
  {
    EveryStateInv(ss, acts, k);
    InvKnows(ss[k], acts[k].0, acts[k].1);
    EveryStepFollows(ss[k], acts[k].0, acts[k].1, op);
  }

  /** Within one life of the operation, every run follows. */
  lemma LifeFollows(ss: seq<State>, acts: seq<(Tid, Act)>, i: nat, j: nat, op: Op)
    requires Run(ss, acts) && i <= j <= |acts| && SameLife(acts, i, j, op)
    ensures FollowsAlong(ss, acts, i, j, op)
  {
    forall k | i <= k < j ensures FollowsAt(ss, acts, k, op) {
      RunFollows(ss, acts, k, op);
    }
  }

  lemma {:induction false} UninstalledStays(ss: seq<State>, acts: seq<(Tid, Act)>, i: nat, j: nat, op: Op)
    requires |ss| == |acts| + 1 && i <= j <= |acts| && FollowsAlong(ss, acts, i, j, op) && Uninstalled(ss[i], op)
    ensures Uninstalled(ss[j], op)
  {
    if i < j {
      UninstalledStays(ss, acts, i, j - 1, op);
      assert FollowsAt(ss, acts, j - 1, op);
    }
  }

  /**
   Once `uninstall_stoppable_callback` has returned, and ever after in this life of the operation, no stopping bucket
   and no list taken from one holds it, whatever the stopping threads do.
   */
  lemma NeverQueuedAgain(ss: seq<State>, acts: seq<(Tid, Act)>, i: nat, j: nat, op: Op, t: Tid, b: nat)
    requires Run(ss, acts) && i <= j <= |acts| && SameLife(acts, i, j, op) && Uninstalled(ss[i], op)
    ensures Uninstalled(ss[j], op) && op !in BucketOf(ss[j], t, b) && op !in Hand(PcOf(ss[j], t))
  {
    EveryStateInv(ss, acts, j);
    LifeFollows(ss, acts, i, j, op);
    UninstalledStays(ss, acts, i, j, op);
    UninstalledIsInNoBucket(ss[j], op, t, b);
  }

  // ---------------------------------------------------------------- stop requests

  /** The stop callback has pushed the operation, and `complete` has not yet looked for it. */
  predicate AskedToStop(s: State, op: Op) {
    var r := Rec(s, op);
    r.callback.Pushed? || r.callback.Returned?
  }

  /**
   No stop request is lost or sent twice: after the push and until the operation is uninstalled, either it is linked
   exactly once, in its local thread's bucket or in that thread's hand, and no cancel SQE was acquired for it; or it
   is linked nowhere and exactly one was.
   */
  lemma StopRequestKept(ss: seq<State>, acts: seq<(Tid, Act)>, i: nat, op: Op)
    requires Run(ss, acts) && i < |ss|
    ensures
      var s, r := ss[i], Rec(ss[i], op);
      && r.cancels <= 1
      && (AskedToStop(s, op) ==> Links(s, r.local, op) + r.cancels == 1)
      && (forall u :: u != r.local ==> Links(s, u, op) == 0)
  {
    EveryStateInv(ss, acts, i);
    var s, r := ss[i], Rec(ss[i], op);
    assert Coherent(r, ThreadPc(s, r.phase)) && Tallied(s.requested, r);
    forall u ensures Links(s, u, op) == One(StopPending(r, u)) {}
  }

  /**
   No stop is forgotten: while a stoppable operation whose stop was requested is in flight, exactly one of these holds:
   its callback has yet to push it, and any thread may take that step; it is linked in its local thread's bucket or in
   that thread's hand; one cancel SQE was acquired for it.
   */
  lemma NoStopForgotten(ss: seq<State>, acts: seq<(Tid, Act)>, i: nat, op: Op)
    requires Run(ss, acts) && i < |ss| && Rec(ss[i], op).phase.InFlight?
    requires Rec(ss[i], op).stoppable && Rec(ss[i], op).token in ss[i].requested
    ensures
      var s, r := ss[i], Rec(ss[i], op);
      && One(r.callback.Registered? || r.callback.Invoked?) + Links(s, r.phase.t, op) + r.cancels == 1
      && (r.callback.Registered? ==> forall u :: Enabled(s, u, Invoke(op)))
      && (r.callback.Invoked? ==> forall u :: Enabled(s, u, RemotePush(op)))
  {
    EveryStateInv(ss, acts, i);
    var s, r := ss[i], Rec(ss[i], op);
    assert Coherent(r, ThreadPc(s, r.phase)) && Tallied(s.requested, r);
    assert Links(s, r.phase.t, op) == One(StopPending(r, r.phase.t));
  }

  /**
   A stop that was requested before the operation starts or restarts completes it there and then, without an SQE; the
   same test lets every other operation go on without a signal.
   */
  lemma StopBeforeStart(ss: seq<State>, acts: seq<(Tid, Act)>, i: nat)
    requires Run(ss, acts) && i < |acts| && acts[i].1.CheckStop?
    ensures
      var s, s', op := ss[i], ss[i + 1], PcOf(ss[i], acts[i].0).op;
      && (forall u :: Entries(s', u, op) == 0)
      && Rec(s', op).signals == (if Rec(s, op).stoppable && Rec(s, op).token in s.requested then [SetStopped] else [])
  {
    EveryStateInv(ss, acts, i);
    EveryStateInv(ss, acts, i + 1);
    var s, s', t := ss[i], ss[i + 1], acts[i].0;
    var op := PcOf(s, t).op;
    assert On(PcOf(s, t), op) && Tallied(s.requested, Rec(s, op));
    forall u ensures Entries(s', u, op) == 0 {
      assert Entries(s', u, op) == One(InRing(s', u, op));
    }
  }

  /** How many cancel SQEs a stretch of a run acquires for the operation. */
  ghost function CancelsSent(ss: seq<State>, acts: seq<(Tid, Act)>, i: nat, j: nat, op: Op): nat
    requires |ss| == |acts| + 1 && i <= j <= |acts|
  {
    if i == j then 0
    else CancelsSent(ss, acts, i, j - 1, op) + One(SendsCancel(ss[j - 1], acts[j - 1].0, acts[j - 1].1, op))
  }

  lemma {:induction false} CancelsCounted(ss: seq<State>, acts: seq<(Tid, Act)>, i: nat, j: nat, op: Op)
    requires |ss| == |acts| + 1 && i <= j <= |acts| && FollowsAlong(ss, acts, i, j, op)
    ensures CancelsSent(ss, acts, i, j, op) == Rec(ss[j], op).cancels - Rec(ss[i], op).cancels
  {
    if i < j {
      CancelsCounted(ss, acts, i, j - 1, op);
      assert FollowsAt(ss, acts, j - 1, op);
    }
  }

  /** Over a whole life of an operation at most one cancel SQE is acquired for it. */
  lemma AtMostOneCancel(ss: seq<State>, acts: seq<(Tid, Act)>, i: nat, j: nat, op: Op)
    requires Run(ss, acts) && i <= j <= |acts| && SameLife(acts, i, j, op)
    ensures CancelsSent(ss, acts, i, j, op) == Rec(ss[j], op).cancels - Rec(ss[i], op).cancels
    ensures CancelsSent(ss, acts, i, j, op) <= 1
  {
    LifeFollows(ss, acts, i, j, op);
    CancelsCounted(ss, acts, i, j, op);
    EveryStateInv(ss, acts, j);
    assert Tallied(ss[j].requested, Rec(ss[j], op));
  }

  // ---------------------------------------------------------------- what the receiver and the owner learn

  /**
   `set_value` carries a result the kernel gave, non-negative or a timer's expiry; `set_error` carries a kernel error
   that is no cancellation; `set_stopped` means that a stop was requested or that the kernel reported a cancellation.
   */
  lemma SignalsAreHonest(ss: seq<State>, acts: seq<(Tid, Act)>, i: nat, op: Op, sig: Signal)
    requires Run(ss, acts) && i < |ss| && sig in Rec(ss[i], op).signals
    ensures
      var s, r := ss[i], Rec(ss[i], op);
      && r.signals == [sig] && r.phase.Done?
      && (sig.SetValue? ==> sig.res == r.result && (r.result >= 0 || (r.timer && r.result in {-ETIME, -ETIMEDOUT})))
      && (sig.SetError? ==> sig.code > 0 && r.result == -sig.code && sig.code != ECANCELED)
      && (sig.SetStopped? ==> r.result == -ECANCELED || (r.stoppable && r.token in s.requested))
  {
    EveryStateInv(ss, acts, i);
    assert Tallied(ss[i].requested, Rec(ss[i], op));
  }

  /**
   `inflight` counts the SQEs acquired for operations and cancels minus the CQEs subtracted; consuming CQEs never
   takes more than it holds. When it is zero, nothing is outstanding on the ring and no operation is in flight there:
   what an `autoquit` exit relies on.
   */
  lemma QuietMeansDone(ss: seq<State>, acts: seq<(Tid, Act)>, i: nat, t: Tid)
    requires Run(ss, acts) && i < |ss|
    ensures
      var s, r := ss[i], RingOf(ss[i], t);
      && 0 <= r.reaped <= r.inflight && |r.sq| <= s.entries
      && (r.inflight == 0 <==> r.sq == [] && r.kernel == [] && r.cq == [] && r.reaped == 0)
      && (r.inflight == 0 ==> forall op :: Entries(s, t, op) == 0 && Rec(s, op).phase != InFlight(t))
  {
    EveryStateInv(ss, acts, i);
    var s, r := ss[i], RingOf(ss[i], t);
    assert Accounted(s.entries, r);
    if r.inflight == 0 {
      forall op ensures Entries(s, t, op) == 0 && Rec(s, op).phase != InFlight(t) {
        assert Entries(s, t, op) == One(InRing(s, t, op));
      }
    }
  }

  /**
   No `uninstall_stoppable_callback` of any run follows a stale link out of its queue: at the second `push_all` the
   operation is in the list just taken, or its own link is null.
   */
  lemma NeverCorrupt(ss: seq<State>, acts: seq<(Tid, Act)>, i: nat)
    requires Run(ss, acts) && i < |acts|
    ensures !ss[i + 1].corrupt
    ensures
      var pc := PcOf(ss[i], acts[i].0);
      acts[i].1.PutFront? ==> pc.FinFront? && (pc.op in pc.taken || !Rec(ss[i], pc.op).linked)
  {
    EveryStateInv(ss, acts, i + 1);
  }
}
