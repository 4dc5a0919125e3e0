/** Every step of an operation's life keeps the invariant. */
module LifecycleInvariant {
  import opened Lists
  import opened Lifecycle

  predicate InCall(pc: Pc) {
    !pc.Idle? && !pc.Cancelling?
  }

  /** The one operation whose record a step may change. */
  function Subject(s: State, t: Tid, act: Act): Op {
    match act
    case Connect(op, _, _, _) => op
    case BeginStart(op) => op
    case LaunchRestart(i) => if i < |s.tasks| then s.tasks[i] else 0
    case Invoke(op) => op
    case RemotePush(op) => op
    case RemoteReturn(op) => op
    case Reap(_) => if RingOf(s, t).cq != [] then RingOf(s, t).cq[0].op else 0
    case CancelSend => if PcOf(s, t).Cancelling? && PcOf(s, t).hand != [] then PcOf(s, t).hand[0] else 0
    case _ => if InCall(PcOf(s, t)) then PcOf(s, t).op else 0
  }

  /** Nothing but thread t's control state and operation x's record changed. */
  ghost predicate OnlyAt(s: State, s': State, t: Tid, x: Op) {
    && (forall u {:trigger PcOf(s', u)} :: u != t ==> PcOf(s', u) == PcOf(s, u))
    && (forall y {:trigger Rec(s', y)} :: y != x ==> Rec(s', y) == Rec(s, y))
  }

  lemma LocalUser(s: State, t: Tid, act: Act)
    requires Enabled(s, t, act) && ByUser(act)
    ensures OnlyAt(s, Stepped(s, t, act), t, Subject(s, t, act))
  {
  }

  lemma LocalStopper(s: State, t: Tid, act: Act)
    requires Enabled(s, t, act) && ByStopper(act)
    ensures OnlyAt(s, Stepped(s, t, act), t, Subject(s, t, act))
  {
  }

  lemma LocalBeginning(s: State, t: Tid, act: Act)
    requires Enabled(s, t, act) && Beginning(act)
    ensures OnlyAt(s, Stepped(s, t, act), t, Subject(s, t, act))
  {
  }

  lemma LocalInstall(s: State, t: Tid, act: Act)
    requires Enabled(s, t, act) && act.Install?
    ensures OnlyAt(s, Stepped(s, t, act), t, Subject(s, t, act))
  {
  }

  lemma LocalRing(s: State, t: Tid, act: Act)
    requires Enabled(s, t, act) && OnRing(act)
    ensures OnlyAt(s, Stepped(s, t, act), t, Subject(s, t, act))
  {
  }

  lemma LocalReap(s: State, t: Tid, act: Act)
    requires Enabled(s, t, act) && act.Reap?
    ensures OnlyAt(s, Stepped(s, t, act), t, Subject(s, t, act))
  {
  }

  lemma LocalTaking(s: State, t: Tid, act: Act)
    requires Enabled(s, t, act) && Taking(act)
    ensures OnlyAt(s, Stepped(s, t, act), t, Subject(s, t, act))
  {
  }

  lemma LocalPutFront(s: State, t: Tid, act: Act)
    requires Enabled(s, t, act) && act.PutFront?
    ensures OnlyAt(s, Stepped(s, t, act), t, Subject(s, t, act))
  {
  }

  lemma LocalCancelPass(s: State, t: Tid, act: Act)
    requires Enabled(s, t, act) && InCancelPass(act)
    ensures OnlyAt(s, Stepped(s, t, act), t, Subject(s, t, act))
  {
  }

  lemma CallIsLocal(s: State, u: Tid, act: Act)
    requires Enabled(s, u, act) && (InStart(act) || InComplete(act))
    ensures OnlyAt(s, Stepped(s, u, act), u, Subject(s, u, act))
  {
    if Beginning(act) { LocalBeginning(s, u, act); }
    else if act.Install? { LocalInstall(s, u, act); }
    else if act.Reap? { LocalReap(s, u, act); }
    else if Taking(act) { LocalTaking(s, u, act); }
    else if act.PutFront? { LocalPutFront(s, u, act); }
  }

  /** Another thread's step leaves thread t where it is. */
  lemma OthersLeaveIt(s: State, u: Tid, act: Act, t: Tid)
    requires Enabled(s, u, act) && u != t
    ensures PcOf(Stepped(s, u, act), t) == PcOf(s, t)
  {
    if ByUser(act) { LocalUser(s, u, act); }
    else if ByStopper(act) { LocalStopper(s, u, act); }
    else if OnRing(act) { LocalRing(s, u, act); }
    else if InCancelPass(act) { LocalCancelPass(s, u, act); }
    else { CallIsLocal(s, u, act); }
  }

  /** Where the operation of a step is expected to be. */
  predicate Located(s: State, t: Tid, act: Act) {
    var pc, x := PcOf(s, t), Subject(s, t, act);
    && (On(pc, x) <==> Rec(s, x).phase == Running(t))
    && (InCall(pc) ==> Rec(s, pc.op).phase == Running(t))
    && (act.Reap? && RingOf(s, t).cq != [] && RingOf(s, t).cq[0].Perform? ==> Rec(s, x).phase == InFlight(t))
    && (act.LaunchRestart? ==> Rec(s, x).phase.Queued?)
  }

  /** What a step can rely on: its operation's place and record, and whether its stop request is queued. */
  predicate Known(s: State, t: Tid, act: Act) {
    var x := Subject(s, t, act);
    && Located(s, t, act)
    && Coherent(Rec(s, x), ThreadPc(s, Rec(s, x).phase)) && Tallied(s.requested, Rec(s, x))
    && (act.TakeBucket? ==> (Rec(s, x).request.Pending? <==> x in BucketOf(s, t, Home(x))))
    && (act.CancelSend? ==> StopPending(Rec(s, x), t))
  }

  lemma InvLocates(s: State, t: Tid, act: Act)
    requires Placed(s) && TasksOk(s) && RingsOk(s) && Enabled(s, t, act)
    ensures Located(s, t, act)
  {
    var pc, x := PcOf(s, t), Subject(s, t, act);
    assert Rec(s, x).phase.Running? ==> On(PcOf(s, Rec(s, x).phase.t), x);
    assert InCall(pc) ==> On(pc, pc.op);
    if act.Reap? {
      assert Entries(s, t, x) == One(InRing(s, t, x));
      CountIn(RingOf(s, t).cq, Perform(x));
    } else if act.LaunchRestart? {
      CountIn(s.tasks, x);
    }
  }

  /** A stop request that is pending is linked: in the bucket, or in the hand that was taken from it. */
  lemma PendingIsLinked(s: State, t: Tid, x: Op)
    requires LinksOk(s)
    ensures StopPending(Rec(s, x), t) <==> x in BucketOf(s, t, Home(x)) || x in Hand(PcOf(s, t))
  {
    assert Links(s, t, x) == One(StopPending(Rec(s, x), t));
    CountIn(BucketOf(s, t, Home(x)), x);
    CountIn(Hand(PcOf(s, t)), x);
  }

  lemma InvKnows(s: State, t: Tid, act: Act)
    requires Inv(s) && Enabled(s, t, act)
    ensures Known(s, t, act)
  {
    InvLocates(s, t, act);
    PendingIsLinked(s, t, Subject(s, t, act));
  }

  predicate NotElsewhere(p: Phase, t: Tid) {
    p.Running? || p.InFlight? ==> p.t == t
  }

  /** Conditions on one record and one control state that are enough for three parts of the invariant. */
  ghost predicate GoodMove(s: State, s': State, t: Tid, x: Op) {
    var p, p', r, r' := PcOf(s, t), PcOf(s', t), Rec(s, x), Rec(s', x);
    && (p' == p || ((InCall(p) ==> p.op == x) && (InCall(p') ==> p'.op == x)))
    && (On(p', x) <==> r'.phase == Running(t))
    && (r'.phase == r.phase || (NotElsewhere(r.phase, t) && NotElsewhere(r'.phase, t)))
    && Coherent(r', ThreadPc(s', r'.phase))
    && s.requested <= s'.requested && Tallied(s'.requested, r')
    && s'.corrupt == s.corrupt
  }

  lemma GoodMoveKeeps(s: State, s': State, t: Tid, x: Op)
    requires Inv(s) && OnlyAt(s, s', t, x) && GoodMove(s, s', t, x)
    ensures Placed(s') && RecordsOk(s') && TalliesOk(s')
  {
    forall u, y {:trigger On(PcOf(s', u), y)} | On(PcOf(s', u), y) ensures Rec(s', y).phase == Running(u) {
      assert On(PcOf(s, u), y) ==> Rec(s, y).phase == Running(u);
    }
    forall y ensures
      && (Rec(s', y).phase.Running? ==> On(PcOf(s', Rec(s', y).phase.t), y))
      && Coherent(Rec(s', y), ThreadPc(s', Rec(s', y).phase))
      && Tallied(s'.requested, Rec(s', y))
    {
      assert Rec(s, y).phase.Running? ==> On(PcOf(s, Rec(s, y).phase.t), y);
      assert Tallied(s.requested, Rec(s, y));
    }
  }

  lemma MovesBegin(s: State, t: Tid, act: Act)
    requires Enabled(s, t, act) && Known(s, t, act) && (act.BeginStart? || act.LaunchRestart?)
    ensures GoodMove(s, Stepped(s, t, act), t, Subject(s, t, act))
  {
  }

  lemma MovesRequest(s: State, t: Tid, act: Act)
    requires Enabled(s, t, act) && Known(s, t, act) && act.RequestStop?
    ensures GoodMove(s, Stepped(s, t, act), t, Subject(s, t, act))
  {
  }

  lemma MovesCallback(s: State, t: Tid, act: Act)
    requires Enabled(s, t, act) && Known(s, t, act) && ByStopper(act) && !act.RequestStop?
    ensures GoodMove(s, Stepped(s, t, act), t, Subject(s, t, act))
  {
  }

  lemma MovesBeginning(s: State, t: Tid, act: Act)
    requires Enabled(s, t, act) && Known(s, t, act) && Beginning(act)
    ensures GoodMove(s, Stepped(s, t, act), t, Subject(s, t, act))
  {
  }

  lemma MovesInstall(s: State, t: Tid, act: Act)
    requires Enabled(s, t, act) && Known(s, t, act) && act.Install?
    ensures GoodMove(s, Stepped(s, t, act), t, Subject(s, t, act))
  {
  }

  lemma MovesRing(s: State, t: Tid, act: Act)
    requires Enabled(s, t, act) && Known(s, t, act) && OnRing(act)
    ensures GoodMove(s, Stepped(s, t, act), t, Subject(s, t, act))
  {
  }

  lemma MovesReap(s: State, t: Tid, act: Act)
    requires Enabled(s, t, act) && Known(s, t, act) && act.Reap?
    ensures GoodMove(s, Stepped(s, t, act), t, Subject(s, t, act))
  {
  }

  lemma MovesReset(s: State, t: Tid, act: Act)
    requires Enabled(s, t, act) && Known(s, t, act) && act.Reset?
    ensures GoodMove(s, Stepped(s, t, act), t, Subject(s, t, act))
  {
  }

  lemma MovesPutFrontFound(s: State, t: Tid, act: Act)
    requires Enabled(s, t, act) && Known(s, t, act) && act.PutFront? && PcOf(s, t).op in PcOf(s, t).taken
    ensures GoodMove(s, Stepped(s, t, act), t, Subject(s, t, act))
  {
  }

  lemma MovesPutFrontAbsent(s: State, t: Tid, act: Act)
    requires Enabled(s, t, act) && Known(s, t, act) && act.PutFront? && PcOf(s, t).op !in PcOf(s, t).taken
    ensures GoodMove(s, Stepped(s, t, act), t, Subject(s, t, act))
  {
  }

  lemma MovesPutFront(s: State, t: Tid, act: Act)
    requires Enabled(s, t, act) && Known(s, t, act) && act.PutFront?
    ensures GoodMove(s, Stepped(s, t, act), t, Subject(s, t, act))
  {
    if PcOf(s, t).op in PcOf(s, t).taken { MovesPutFrontFound(s, t, act); } else { MovesPutFrontAbsent(s, t, act); }
  }

}
