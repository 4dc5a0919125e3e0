/**
 No operation is ever stranded: from every state of every run, each operation that was started and has no signal yet can
 be brought to its completion by one thread, with the kernel and the stop callbacks that it waits for. Likewise every
 ring can be drained, and every stop request that waits in a bucket can be served.
 */
module LifecycleCompletes {
  import opened Lists
  import opened Lifecycle
  import opened LifecycleRuns
  import opened LifecycleSteps
  import opened LifecycleCalls

  /** Steps of thread t, of its kernel, and of callbacks. */
  ghost predicate Path(ss: seq<State>, acts: seq<Act>, t: Tid) {
    && |ss| == |acts| + 1
    && forall k {:trigger acts[k]} :: 0 <= k < |acts| ==> Enabled(ss[k], t, acts[k]) && ss[k + 1] == Stepped(ss[k], t, acts[k])
  }

  ghost predicate Reaches(s: State, s': State, t: Tid) {
    exists ss, acts {:trigger Path(ss, acts, t)} :: Path(ss, acts, t) && ss[0] == s && ss[|acts|] == s'
  }

  lemma ReachesSelf(s: State, t: Tid)
    ensures Reaches(s, s, t)
  {
    assert Path([s], [], t);
  }

  lemma ReachesBy(s: State, t: Tid, act: Act)
    requires Enabled(s, t, act)
    ensures Reaches(s, Stepped(s, t, act), t)
  {
    assert Path([s, Stepped(s, t, act)], [act], t);
  }

  lemma ReachesOn(s: State, s1: State, s2: State, t: Tid)
    requires Reaches(s, s1, t) && Reaches(s1, s2, t)
    ensures Reaches(s, s2, t)
  {
    var ss, acts :| Path(ss, acts, t) && ss[0] == s && ss[|acts|] == s1;
    var us, more :| Path(us, more, t) && us[0] == s1 && us[|more|] == s2;
    var vs, all := ss + us[1..], acts + more;
    forall k {:trigger all[k]} | 0 <= k < |all| ensures Enabled(vs[k], t, all[k]) && vs[k + 1] == Stepped(vs[k], t, all[k]) {
      if k < |acts| {
        assert all[k] == acts[k] && vs[k] == ss[k] && vs[k + 1] == ss[k + 1];
      } else {
        assert all[k] == more[k - |acts|] && vs[k] == us[k - |acts|] && vs[k + 1] == us[k + 1 - |acts|];
      }
    }
    assert Path(vs, all, t);
  }

  /**
   Thread t's ring and the restart tasks, as a call leaves them: only the SQ and the tasks may grow, and `complete` makes
   nothing grow.
   */
  predicate Grown(s: State, s': State, t: Tid) {
    var r, r' := RingOf(s, t), RingOf(s', t);
    && s'.entries == s.entries && r'.cq == r.cq && r'.kernel == r.kernel && r.sq <= r'.sq && s.tasks <= s'.tasks
    && (PcOf(s, t).Idle? || InFin(PcOf(s, t)) ==> r'.sq == r.sq && (PcOf(s', t).Idle? || InFin(PcOf(s', t))))
  }

  /** The operation has its signal. */
  predicate Signalled(s: State, op: Op) {
    |Rec(s, op).signals| == 1
  }

  /** Its SQE or CQE is in thread t's ring. */
  predicate Outside(s: State, t: Tid, op: Op) {
    var r := RingOf(s, t);
    Perform(op) in r.sq || Perform(op) in r.kernel || Perform(op) in r.cq
  }

  /** The thread is in `complete`. */
  predicate InFin(pc: Pc) {
    pc.FinReset? || pc.FinTake? || pc.FinFront? || pc.FinBack? || pc.FinSignal?
  }

  predicate Finishing(pc: Pc, op: Op) {
    InFin(pc) && pc.op == op
  }

  /** What comes of a call for the operation: it goes on, or has ended as it should. */
  predicate Follows(pc: Pc, s': State, t: Tid, op: Op) {
    && (Finishing(pc, op) ==> Finishing(PcOf(s', t), op) || (PcOf(s', t).Idle? && Signalled(s', op)))
    && (Starting(pc, op) ==>
          Starting(PcOf(s', t), op) || (PcOf(s', t).Idle? && (Signalled(s', op) || op in s'.tasks || Outside(s', t, op))))
  }

  /** How many lines of the call are left, at most. */
  function Lines(pc: Pc): nat {
    match pc
    case Idle => 0
    case StartCheck(_) => 5
    case StartSqe(_) => 4
    case StartInstall(_) => 2
    case StartSpawn(_) => 1
    case StartFire(_) => 1
    case FinReset(_, _) => 5
    case FinTake(_, _) => 4
    case FinFront(_, _, _) => 3
    case FinBack(_, _, _) => 2
    case FinSignal(_, _) => 1
    case Cancelling(_, hand) => |hand| + 1
  }

  lemma InRingIsOutside(s: State, t: Tid, op: Op)
    requires Inv(s) && InRing(s, t, op)
    ensures Outside(s, t, op)
  {
    assert Entries(s, t, op) == One(InRing(s, t, op));
    CountIn(RingOf(s, t).sq, Perform(op));
    CountIn(RingOf(s, t).kernel, Perform(op));
    CountIn(RingOf(s, t).cq, Perform(op));
  }

  /** A thread inside a call for an operation that has no signal yet. */
  lemma NoneYet(s: State, t: Tid, op: Op)
    requires Inv(s) && On(PcOf(s, t), op)
    ensures Rec(s, op).signals == [] && (HasSqe(PcOf(s, t)) ==> Outside(s, t, op))
  {
    assert Tallied(s.requested, Rec(s, op)) && Rec(s, op).phase == Running(t);
    if HasSqe(PcOf(s, t)) {
      InRingIsOutside(s, t, op);
    }
  }

  /** The line that a thread inside a call executes next. */
  function NextLine(s: State, t: Tid): Act {
    match PcOf(s, t)
    case StartCheck(_) => CheckStop
    case StartSqe(_) => GetSqe
    case StartSpawn(_) => Spawn(true)
    case StartInstall(_) => Install
    case StartFire(_) => FireInline
    case FinReset(_, _) => Reset
    case FinTake(_, _) => TakeBucket
    case FinFront(_, _, _) => PutFront
    case FinBack(_, _, _) => PutBack
    case FinSignal(_, _) => Deliver
    case Cancelling(_, hand) => if hand == [] then CancelEnd else if |RingOf(s, t).sq| < s.entries then CancelSend else CancelPutBack
    case Idle => Advance
  }

  lemma LineLeads(s: State, t: Tid, act: Act, op: Op)
    requires Enabled(s, t, act) && act == NextLine(s, t) && PcOf(s, t) != Idle
    ensures
      var s' := Stepped(s, t, act);
      Leads(s, s', t, act) && Tells(s, s', t, act, op) && RingFollows(s, s', t, act, t) && SharedFollows(s, s', t, act)
  {
    EveryStepDoes(s, t, act, t, 0, op);
  }

  lemma LineGrows(s: State, t: Tid)
    requires PcOf(s, t) != Idle && Enabled(s, t, NextLine(s, t))
    ensures Grown(s, Stepped(s, t, NextLine(s, t)), t)
  {
    LineLeads(s, t, NextLine(s, t), 0);
  }

  lemma LineShrinks(s: State, t: Tid)
    requires PcOf(s, t) != Idle && Enabled(s, t, NextLine(s, t))
    ensures Lines(PcOf(Stepped(s, t, NextLine(s, t)), t)) < Lines(PcOf(s, t))
  {
    LineLeads(s, t, NextLine(s, t), 0);
  }

  lemma LineFollows(s: State, t: Tid, op: Op)
    requires Inv(s) && PcOf(s, t) != Idle && Enabled(s, t, NextLine(s, t)) && On(PcOf(s, t), op)
    ensures Follows(PcOf(s, t), Stepped(s, t, NextLine(s, t)), t, op)
  {
    LineLeads(s, t, NextLine(s, t), op);
    NoneYet(s, t, op);
  }

  /** The next line of a call. */
  lemma OneLine(s: State, t: Tid, op: Op) returns (s': State)
    requires Inv(s) && PcOf(s, t) != Idle && Enabled(s, t, NextLine(s, t))
    ensures Reaches(s, s', t) && Inv(s') && Grown(s, s', t) && Lines(PcOf(s', t)) < Lines(PcOf(s, t))
    ensures Follows(PcOf(s, t), s', t, op)
  {
    var act := NextLine(s, t);
    s' := Stepped(s, t, act);
    ReachesBy(s, t, act);
    EveryStepKeeps(s, t, act);
    LineGrows(s, t);
    LineShrinks(s, t);
    if On(PcOf(s, t), op) {
      LineFollows(s, t, op);
    }
  }

  /** A stop callback that a thread waits for runs on: to its end, if it has pushed already. */
  lemma CallbackEnds(s: State, t: Tid, op: Op) returns (s': State)
    requires Inv(s) && PcOf(s, t).FinReset? && PcOf(s, t).op == op && (Rec(s, op).callback.Invoked? || Rec(s, op).callback.Pushed?)
    ensures Reaches(s, s', t) && Inv(s') && Grown(s, s', t) && PcOf(s', t) == PcOf(s, t)
    ensures Rec(s', op).callback == if Rec(s, op).callback.Invoked? then Pushed else Callback.Returned
  {
    var act := if Rec(s, op).callback.Invoked? then RemotePush(op) else RemoteReturn(op);
    s' := Stepped(s, t, act);
    ReachesBy(s, t, act);
    EveryStepKeeps(s, t, act);
    EveryStepDoes(s, t, act, t, 0, op);
  }

  /** A thread inside a call gets to its next line. */
  lemma Unblocked(s: State, t: Tid) returns (s': State)
    requires Inv(s) && PcOf(s, t) != Idle
    ensures Reaches(s, s', t) && Inv(s') && Grown(s, s', t) && PcOf(s', t) == PcOf(s, t) && Enabled(s', t, NextLine(s', t))
  {
    s' := s;
    ReachesSelf(s, t);
    if PcOf(s, t).FinReset? {
      var op := PcOf(s, t).op;
      if Rec(s, op).callback.Invoked? || Rec(s, op).callback.Pushed? {
        s' := CallbackEnds(s, t, op);
      }
      if Rec(s', op).callback.Pushed? {
        var s1 := s';
        s' := CallbackEnds(s1, t, op);
        ReachesOn(s, s1, s', t);
      }
    }
  }

  /** A call comes to its end. */
  lemma {:induction false} CallEnds(s: State, t: Tid, op: Op) returns (s': State)
    requires Inv(s)
    ensures Reaches(s, s', t) && Inv(s') && Grown(s, s', t) && PcOf(s', t).Idle?
    ensures if PcOf(s, t).Idle? then s' == s else Follows(PcOf(s, t), s', t, op)
    decreases Lines(PcOf(s, t))
  {
    if PcOf(s, t).Idle? {
      s' := s;
      ReachesSelf(s, t);
    } else {
      var s1 := Unblocked(s, t);
      var s2 := OneLine(s1, t, op);
      ReachesOn(s, s1, s2, t);
      s' := CallEnds(s2, t, op);
      ReachesOn(s, s2, s', t);
    }
  }

  // ---------------------------------------------------------------- from the ring to the signal

  /** One step of the ring by an idle thread. */
  lemma RingStep(s: State, t: Tid, act: Act) returns (s': State)
    requires Inv(s) && Enabled(s, t, act) && (act.Submit? || act.KernelDone? || act.Reap?)
    ensures s' == Stepped(s, t, act) && Reaches(s, s', t) && Inv(s') && s'.entries == s.entries && s'.tasks == s.tasks
    ensures RingFollows(s, s', t, act, t) && Leads(s, s', t, act)
  {
    s' := Stepped(s, t, act);
    ReachesBy(s, t, act);
    EveryStepKeeps(s, t, act);
    EveryStepDoes(s, t, act, t, 0, 0);
  }

  /** Its CQE is reaped in its turn, and `complete` signals it. */
  lemma {:induction false} Reaped(s: State, t: Tid, op: Op) returns (s': State)
    requires Inv(s) && PcOf(s, t).Idle? && Perform(op) in RingOf(s, t).cq
    ensures Reaches(s, s', t) && Signalled(s', op)
    decreases |RingOf(s, t).cq|
  {
    var cq := RingOf(s, t).cq;
    var s1 := RingStep(s, t, Reap(0));
    var s2 := CallEnds(s1, t, op);
    ReachesOn(s, s1, s2, t);
    if cq[0] == Perform(op) {
      s' := s2;
    } else {
      assert Perform(op) in cq[1..];
      s' := Reaped(s2, t, op);
      ReachesOn(s, s2, s', t);
    }
  }

  /** From the SQ to the kernel, and from there to the CQ. */
  lemma Posted(s: State, t: Tid, op: Op) returns (s': State)
    requires Inv(s) && PcOf(s, t).Idle? && Outside(s, t, op)
    ensures Reaches(s, s', t) && Inv(s') && PcOf(s', t).Idle? && Perform(op) in RingOf(s', t).cq
  {
    var s1 := RingStep(s, t, Submit(|RingOf(s, t).sq|));
    if Perform(op) in RingOf(s1, t).cq {
      s' := s1;
    } else {
      var k := IndexOf(RingOf(s1, t).kernel, Perform(op));
      s' := RingStep(s1, t, KernelDone(k));
      ReachesOn(s, s1, s', t);
    }
  }

  lemma FromOutside(s: State, t: Tid, op: Op) returns (s': State)
    requires Inv(s) && PcOf(s, t).Idle? && Outside(s, t, op)
    ensures Reaches(s, s', t) && Signalled(s', op)
  {
    var s1 := Posted(s, t, op);
    s' := Reaped(s1, t, op);
    ReachesOn(s, s1, s', t);
  }

  /** A restart finds room once the SQ has been submitted. */
  lemma FromTasks(s: State, t: Tid, op: Op) returns (s': State)
    requires Inv(s) && s.entries > 0 && PcOf(s, t).Idle? && op in s.tasks
    ensures Reaches(s, s', t) && Signalled(s', op)
  {
    var s1 := RingStep(s, t, Submit(|RingOf(s, t).sq|));
    var act := LaunchRestart(IndexOf(s1.tasks, op));
    var s2 := Stepped(s1, t, act);
    ReachesBy(s1, t, act);
    EveryStepKeeps(s1, t, act);
    EveryStepDoes(s1, t, act, t, 0, op);
    ReachesOn(s, s1, s2, t);
    s' := FromStart(s2, t, op);
    ReachesOn(s, s2, s', t);
  }

  /** One line of a call, with all that it does to the ring and to this operation. */
  lemma ThisLine(s: State, t: Tid, op: Op) returns (s': State)
    requires Inv(s) && PcOf(s, t) != Idle && Enabled(s, t, NextLine(s, t))
    ensures Reaches(s, s', t) && Inv(s') && Leads(s, s', t, NextLine(s, t)) && Tells(s, s', t, NextLine(s, t), op)
    ensures RingFollows(s, s', t, NextLine(s, t), t) && s'.entries == s.entries
  {
    s' := Stepped(s, t, NextLine(s, t));
    ReachesBy(s, t, NextLine(s, t));
    EveryStepKeeps(s, t, NextLine(s, t));
    LineLeads(s, t, NextLine(s, t), op);
  }

  /** `start` with an empty SQ. */
  lemma FromStart(s: State, t: Tid, op: Op) returns (s': State)
    requires Inv(s) && s.entries > 0 && PcOf(s, t) == StartCheck(op) && RingOf(s, t).sq == []
    ensures Reaches(s, s', t) && Signalled(s', op)
  {
    NoneYet(s, t, op);
    s' := ThisLine(s, t, op);
    if !StopAsked(s, op) {
      var s1 := s';
      s' := FromRoom(s1, t, op);
      ReachesOn(s, s1, s', t);
    }
  }

  lemma FromRoom(s: State, t: Tid, op: Op) returns (s': State)
    requires Inv(s) && s.entries > 0 && PcOf(s, t) == StartSqe(op) && RingOf(s, t).sq == []
    ensures Reaches(s, s', t) && Signalled(s', op)
  {
    var s1 := ThisLine(s, t, op);
    assert Perform(op) in RingOf(s1, t).sq;
    var s2 := CallEnds(s1, t, op);
    ReachesOn(s, s1, s2, t);
    s' := FromOutside(s2, t, op);
    ReachesOn(s, s2, s', t);
  }

  // ---------------------------------------------------------------- from anywhere

  /** A thread that is busy with something else comes back to its loop first. */
  lemma FromAnyCall(s: State, t: Tid, op: Op) returns (s': State)
    requires Inv(s) && s.entries > 0 && (op in s.tasks || Outside(s, t, op))
    ensures Reaches(s, s', t) && Signalled(s', op)
  {
    var s1 := CallEnds(s, t, op);
    if op in s1.tasks {
      s' := FromTasks(s1, t, op);
    } else {
      s' := FromOutside(s1, t, op);
    }
    ReachesOn(s, s1, s', t);
  }

  /** From inside a call for the operation. */
  lemma FromCall(s: State, t: Tid, op: Op) returns (s': State)
    requires Inv(s) && s.entries > 0 && On(PcOf(s, t), op)
    ensures Reaches(s, s', t) && Signalled(s', op)
  {
    var s1 := CallEnds(s, t, op);
    if Signalled(s1, op) {
      s' := s1;
    } else {
      s' := FromAnyCall(s1, t, op);
      ReachesOn(s, s1, s', t);
    }
  }

  /** The thread in whose hands the operation is; one that waits as a restart may be taken by any thread u. */
  function Keeper(s: State, op: Op, u: Tid): Tid {
    match Rec(s, op).phase
    case Running(t) => t
    case InFlight(t) => t
    case _ => u
  }

  /**
   In every state of every run, whatever the threads are in the middle of, every operation that has been started gets its
   one signal if its thread just goes on, and with it the kernel and the stop callback that it may wait for: no operation
   is stranded, and no call is stuck.
   */
  lemma EveryOperationCanComplete(ss: seq<State>, acts: seq<(Tid, Act)>, i: nat, op: Op, u: Tid) returns (s': State)
    requires Run(ss, acts) && i < |ss| && ss[i].entries > 0 && !Rec(ss[i], op).phase.Fresh?
    ensures Reaches(ss[i], s', Keeper(ss[i], op, u)) && Signalled(s', op)
  {
    var s, t := ss[i], Keeper(ss[i], op, u);
    EveryStateInv(ss, acts, i);
    match Rec(s, op).phase
    case Running(_) => s' := FromCall(s, t, op);
    case InFlight(_) =>
      InRingIsOutside(s, t, op);
      s' := FromAnyCall(s, t, op);
    case Queued =>
      assert Count(s.tasks, op) == One(Rec(s, op).phase.Queued?);
      CountIn(s.tasks, op);
      s' := FromAnyCall(s, t, op);
    case Done =>
      s' := s;
      ReachesSelf(s, t);
      assert Tallied(s.requested, Rec(s, op));
  }

  /** An operation that was connected can be started by any thread in its loop, and completes if that thread goes on. */
  lemma StartedCanComplete(ss: seq<State>, acts: seq<(Tid, Act)>, i: nat, op: Op, t: Tid) returns (s': State)
    requires Run(ss, acts) && i < |ss| && ss[i].entries > 0 && Rec(ss[i], op).phase.Fresh? && PcOf(ss[i], t).Idle?
    ensures Reaches(ss[i], s', t) && Signalled(s', op)
  {
    EveryStateInv(ss, acts, i);
    var s1 := Stepped(ss[i], t, BeginStart(op));
    ReachesBy(ss[i], t, BeginStart(op));
    EveryStepKeeps(ss[i], t, BeginStart(op));
    EveryStepDoes(ss[i], t, BeginStart(op), t, 0, op);
    s' := FromCall(s1, t, op);
    ReachesOn(ss[i], s1, s', t);
  }

  // ---------------------------------------------------------------- draining

  /** How far the ring is from being empty. */
  function Distance(r: Ring): nat {
    3 * |r.sq| + 2 * |r.kernel| + |r.cq|
  }

  /** Nothing is outstanding on the ring, and its count says so. */
  predicate Empty(r: Ring) {
    r.sq == [] && r.kernel == [] && r.cq == [] && r.inflight == 0
  }

  /** The next step towards an empty ring. */
  lemma OneStepLess(s: State, t: Tid) returns (s': State)
    requires Inv(s) && PcOf(s, t).Idle? && Distance(RingOf(s, t)) > 0
    ensures Reaches(s, s', t) && Inv(s') && PcOf(s', t).Idle? && Distance(RingOf(s', t)) < Distance(RingOf(s, t))
  {
    var r := RingOf(s, t);
    if r.cq != [] {
      var s1 := RingStep(s, t, Reap(0));
      s' := CallEnds(s1, t, 0);
      ReachesOn(s, s1, s', t);
    } else if r.kernel != [] {
      s' := RingStep(s, t, KernelDone(0));
    } else {
      s' := RingStep(s, t, Submit(|r.sq|));
    }
  }

  lemma {:induction false} Drains(s: State, t: Tid) returns (s': State)
    requires Inv(s) && PcOf(s, t).Idle?
    ensures Reaches(s, s', t) && Empty(RingOf(s', t))
    decreases Distance(RingOf(s, t))
  {
    if Distance(RingOf(s, t)) > 0 {
      var s1 := OneStepLess(s, t);
      s' := Drains(s1, t);
      ReachesOn(s, s1, s', t);
    } else {
      s' := Stepped(s, t, Advance);
      ReachesBy(s, t, Advance);
      EveryStepDoes(s, t, Advance, t, 0, 0);
      assert Accounted(s.entries, RingOf(s, t));
    }
  }

  /**
   From every state of every run a thread that just goes on, with its kernel, comes to an empty ring with nothing in
   flight: a loop that quits at zero can always quit.
   */
  lemma EveryRingDrains(ss: seq<State>, acts: seq<(Tid, Act)>, i: nat, t: Tid) returns (s': State)
    requires Run(ss, acts) && i < |ss|
    ensures Reaches(ss[i], s', t) && Empty(RingOf(s', t))
  {
    EveryStateInv(ss, acts, i);
    var s1 := CallEnds(ss[i], t, 0);
    s' := Drains(s1, t);
    ReachesOn(ss[i], s1, s', t);
  }

  // ---------------------------------------------------------------- serving stops

  /** A line of the cancel pass. */
  lemma PassLine(s: State, t: Tid, op: Op) returns (s': State)
    requires Inv(s) && PcOf(s, t).Cancelling? && op in PcOf(s, t).hand
    ensures Reaches(s, s', t) && Inv(s') && s'.entries == s.entries
    ensures
      var pc, room := PcOf(s, t), |RingOf(s, t).sq| < s.entries;
      if !room then PcOf(s', t).Idle? && BucketOf(s', t, pc.b) == pc.hand + BucketOf(s, t, pc.b)
      else
        && PcOf(s', t) == Cancelling(pc.b, pc.hand[1..]) && RingOf(s', t).sq == RingOf(s, t).sq + [Cancel(pc.hand[0])]
        && BucketOf(s', t, pc.b) == BucketOf(s, t, pc.b)
  {
    var act := NextLine(s, t);
    s' := Stepped(s, t, act);
    ReachesBy(s, t, act);
    EveryStepKeeps(s, t, act);
    EveryStepDoes(s, t, act, t, PcOf(s, t).b, op);
  }

  /** The pass sends the cancels in its hand as long as there is room; what it puts back is less by at least one. */
  lemma {:induction false} PassServes(s: State, t: Tid, op: Op) returns (s': State)
    requires Inv(s) && PcOf(s, t).Cancelling? && op in PcOf(s, t).hand && BucketOf(s, t, PcOf(s, t).b) == []
    ensures Reaches(s, s', t) && Inv(s') && s'.entries == s.entries
    ensures
      var q := BucketOf(s', t, PcOf(s, t).b);
      || Cancel(op) in RingOf(s', t).sq
      || (PcOf(s', t).Idle? && op in q && |q| + One(|RingOf(s, t).sq| < s.entries) <= |PcOf(s, t).hand|)
    decreases |PcOf(s, t).hand|
  {
    var hand := PcOf(s, t).hand;
    var s1 := PassLine(s, t, op);
    s' := s1;
    if |RingOf(s, t).sq| < s.entries && hand[0] != op {
      assert op in hand[1..];
      s' := PassServes(s1, t, op);
      ReachesOn(s, s1, s', t);
    } else {
      assert hand + [] == hand;
    }
  }

  /** A pass over the bucket, with an empty SQ. */
  lemma PassBegins(s: State, t: Tid, b: nat, op: Op) returns (s': State)
    requires Inv(s) && PcOf(s, t).Idle? && op in BucketOf(s, t, b)
    ensures Reaches(s, s', t) && Inv(s') && s'.entries == s.entries && RingOf(s', t).sq == []
    ensures PcOf(s', t) == Cancelling(b, BucketOf(s, t, b)) && BucketOf(s', t, b) == []
  {
    assert AtHome(BucketOf(s, t, b), b);
    var act := Submit(|RingOf(s, t).sq|);
    var s1 := RingStep(s, t, act);
    EveryStepDoes(s, t, act, t, b, op);
    s' := Stepped(s1, t, CancelTake(b));
    ReachesBy(s1, t, CancelTake(b));
    EveryStepKeeps(s1, t, CancelTake(b));
    EveryStepDoes(s1, t, CancelTake(b), t, b, op);
    ReachesOn(s, s1, s', t);
  }

  lemma {:induction false} Served(s: State, t: Tid, b: nat, op: Op) returns (s': State)
    requires Inv(s) && s.entries > 0 && PcOf(s, t).Idle? && op in BucketOf(s, t, b)
    ensures Reaches(s, s', t) && Cancel(op) in RingOf(s', t).sq
    decreases |BucketOf(s, t, b)|
  {
    var s1 := PassBegins(s, t, b, op);
    var s2 := PassServes(s1, t, op);
    ReachesOn(s, s1, s2, t);
    s' := s2;
    if Cancel(op) !in RingOf(s2, t).sq {
      s' := Served(s2, t, b, op);
      ReachesOn(s, s2, s', t);
    }
  }

  /**
   From every state of every run, a loop can serve any stop request that waits in one of its buckets, however full the
   bucket and however small the ring: it passes over the bucket until the request has its cancel SQE.
   */
  lemma EveryStopCanBeServed(ss: seq<State>, acts: seq<(Tid, Act)>, i: nat, t: Tid, b: nat, op: Op) returns (s': State)
    requires Run(ss, acts) && i < |ss| && ss[i].entries > 0 && PcOf(ss[i], t).Idle? && op in BucketOf(ss[i], t, b)
    ensures Reaches(ss[i], s', t) && Cancel(op) in RingOf(s', t).sq
  {
    EveryStateInv(ss, acts, i);
    s' := Served(ss[i], t, b, op);
  }
}
