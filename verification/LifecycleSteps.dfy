/**
 What each step of the lifecycle does, told line by line: where it takes its thread, which signal it sends, and what it
 changes in the rings, the buckets and the task queue.
 */
module LifecycleSteps {
  import opened Lists
  import opened Lifecycle

  /** A stop was requested of an operation that can be stopped. */
  predicate StopAsked(s: State, op: Op) {
    Rec(s, op).stoppable && Rec(s, op).token in s.requested
  }

  /** The next line that thread t will execute, after this step of its own. */
  predicate Leads(s: State, s': State, t: Tid, act: Act) {
    var pc, pc' := PcOf(s, t), PcOf(s', t);
    match act
    case BeginStart(op) => pc' == StartCheck(op)
    case LaunchRestart(i) => i < |s.tasks| && pc' == StartCheck(s.tasks[i])
    case CheckStop => pc.StartCheck? && pc' == if StopAsked(s, pc.op) then Idle else StartSqe(pc.op)
    case GetSqe => pc.StartSqe? && pc' == if |RingOf(s, t).sq| < s.entries then StartInstall(pc.op) else StartSpawn(pc.op)
    case Spawn(_) => pc.StartSpawn? && pc' == Idle
    case Install => pc.StartInstall? && pc' == if StopAsked(s, pc.op) then StartFire(pc.op) else Idle
    case FireInline => pc.StartFire? && pc' == Idle
    case Reap(res) =>
      && RingOf(s, t).cq != []
      && pc' == if RingOf(s, t).cq[0].Perform? then FinReset(RingOf(s, t).cq[0].op, res) else pc
    case Reset => pc.FinReset? && pc' == if Rec(s, pc.op).stoppable then FinTake(pc.op, pc.res) else FinSignal(pc.op, pc.res)
    case TakeBucket =>
      && pc.FinTake?
      && var taken := BucketOf(s, t, Home(pc.op));
         pc' == if taken == [] then FinSignal(pc.op, pc.res) else FinFront(pc.op, pc.res, taken)
    case PutFront => pc.FinFront? && pc' == FinBack(pc.op, pc.res, After(pc.taken, pc.op))
    case PutBack => pc.FinBack? && pc' == FinSignal(pc.op, pc.res)
    case Deliver => pc.FinSignal? && pc' == Idle
    case CancelTake(b) => pc' == Cancelling(b, BucketOf(s, t, b))
    case CancelSend => pc.Cancelling? && pc.hand != [] && pc' == Cancelling(pc.b, pc.hand[1..])
    case CancelPutBack => pc' == Idle
    case CancelEnd => pc' == Idle
    case _ => pc' == pc
  }

  /** Which signal a result of the kernel calls for. */
  predicate Reports(sig: Signal, timer: bool, res: int) {
    var success := res >= 0 || (timer && (res == -ETIME || res == -ETIMEDOUT));
    && (success ==> sig == SetValue(res))
    && (res == -ECANCELED ==> sig == SetStopped)
    && (!success && res != -ECANCELED ==> sig == SetError(-res))
  }

  /** The step completes the operation. */
  predicate Completes(s: State, t: Tid, act: Act, op: Op) {
    var pc := PcOf(s, t);
    match act
    case CheckStop => pc == StartCheck(op) && StopAsked(s, op)
    case Spawn(ok) => pc == StartSpawn(op) && !ok
    case Deliver => pc.FinSignal? && pc.op == op
    case _ => false
  }

  /** With this signal. */
  predicate Calls(s: State, t: Tid, act: Act, op: Op, sig: Signal) {
    match act
    case CheckStop => sig == SetStopped
    case Spawn(_) => sig == SetSpawnError
    case Deliver => PcOf(s, t).FinSignal? && Reports(sig, Rec(s, op).timer, PcOf(s, t).res)
    case _ => false
  }

  /** What the receiver of an operation gets from a step. */
  predicate Tells(s: State, s': State, t: Tid, act: Act, op: Op) {
    var before, after := Rec(s, op).signals, Rec(s', op).signals;
    if Completes(s, t, act, op) then |after| == |before| + 1 && before <= after && Calls(s, t, act, op, after[|before|])
    else if act.Connect? && act.op == op then after == []
    else after == before
  }

  // ---------------------------------------------------------------- what a step changes

  /** Thread u's ring. */
  predicate RingFollows(s: State, s': State, t: Tid, act: Act, u: Tid) {
    var pc, r, r' := PcOf(s, t), RingOf(s, u), RingOf(s', u);
    if t != u then r' == r
    else
      match act
      case GetSqe =>
        r' == if pc.StartSqe? && |r.sq| < s.entries then r.(sq := r.sq + [Perform(pc.op)], inflight := r.inflight + 1) else r
      case CancelSend =>
        && pc.Cancelling? && pc.hand != [] && |r.sq| < s.entries
        && r' == r.(sq := r.sq + [Cancel(pc.hand[0])], inflight := r.inflight + 1)
      case Submit(n) => n <= |r.sq| && r' == r.(sq := r.sq[n..], kernel := r.kernel + r.sq[..n])
      case KernelDone(i) => i < |r.kernel| && r' == r.(kernel := RemoveAt(r.kernel, i), cq := r.cq + [r.kernel[i]])
      case Reap(_) => r.cq != [] && r' == r.(cq := r.cq[1..], reaped := r.reaped + 1)
      case Advance => r' == r.(inflight := r.inflight - r.reaped, reaped := 0)
      case _ => r' == r
  }

  /** The queue of restart tasks, and the requested stops. */
  predicate SharedFollows(s: State, s': State, t: Tid, act: Act) {
    var pc := PcOf(s, t);
    && s'.entries == s.entries
    && s'.requested == (if act.RequestStop? then s.requested + {act.token} else s.requested)
    && s'.tasks ==
       match act
       case LaunchRestart(i) => if i < |s.tasks| then RemoveAt(s.tasks, i) else []
       case Spawn(ok) => if pc.StartSpawn? && ok then s.tasks + [pc.op] else s.tasks
       case _ => s.tasks
  }

  /** Bucket b of thread u. */
  predicate BucketFollows(s: State, s': State, t: Tid, act: Act, u: Tid, b: nat) {
    var pc, q, q' := PcOf(s, t), BucketOf(s, u, b), BucketOf(s', u, b);
    match act
    case RemotePush(op) => q' == if Rec(s, op).local == u && Home(op) == b then [op] + q else q
    case FireInline => pc.StartFire? && q' == if Rec(s, pc.op).local == u && Home(pc.op) == b then [pc.op] + q else q
    case TakeBucket => pc.FinTake? && q' == if t == u && Home(pc.op) == b then [] else q
    case PutFront => pc.FinFront? && q' == if t == u && Home(pc.op) == b then Before(pc.taken, pc.op) + q else q
    case PutBack => pc.FinBack? && q' == if t == u && Home(pc.op) == b then pc.rest + q else q
    case CancelTake(c) => q' == if t == u && c == b then [] else q
    case CancelPutBack => pc.Cancelling? && q' == if t == u && pc.b == b then pc.hand + q else q
    case _ => q' == q
  }

  /** What the user gave the operation, and its stop callback. */
  predicate RecordFollows(s: State, s': State, t: Tid, act: Act, op: Op) {
    var pc, r, r' := PcOf(s, t), Rec(s, op), Rec(s', op);
    if act.Connect? && act.op == op then
      r'.token == act.token && r'.stoppable == act.stoppable && r'.timer == act.timer && r'.callback.Absent?
    else
      && r'.token == r.token && r'.stoppable == r.stoppable && r'.timer == r.timer
      && r'.callback ==
         match act
         case Install =>
           if pc != StartInstall(op) || !r.stoppable then r.callback else if r.token in s.requested then Inline else Registered
         case FireInline => if pc == StartFire(op) then Returned else r.callback
         case Invoke(x) => if x == op then Invoked else r.callback
         case RemotePush(x) => if x == op then Pushed else r.callback
         case RemoteReturn(x) => if x == op then Returned else r.callback
         case Reset => if pc.FinReset? && pc.op == op && r.stoppable then Absent else r.callback
         case _ => r.callback
  }

  /** All that a step of thread t does, seen from a thread u, its bucket b, and an operation. */
  predicate Does(s: State, s': State, t: Tid, act: Act, u: Tid, b: nat, op: Op) {
    && Leads(s, s', t, act) && (t != u ==> PcOf(s', u) == PcOf(s, u)) && Tells(s, s', t, act, op)
    && RingFollows(s, s', t, act, u) && SharedFollows(s, s', t, act)
    && BucketFollows(s, s', t, act, u, b) && RecordFollows(s, s', t, act, op)
  }

  lemma DoesFromOutside(s: State, t: Tid, act: Act, u: Tid, b: nat, op: Op)
    requires Enabled(s, t, act) && (act.Connect? || act.RequestStop?)
    ensures Does(s, Stepped(s, t, act), t, act, u, b, op)
  {
  }

  lemma DoesToStart(s: State, t: Tid, act: Act, u: Tid, b: nat, op: Op)
    requires Enabled(s, t, act) && (act.BeginStart? || act.LaunchRestart?)
    ensures Does(s, Stepped(s, t, act), t, act, u, b, op)
  {
  }

  lemma DoesCheckStop(s: State, t: Tid, act: Act, u: Tid, b: nat, op: Op)
    requires Enabled(s, t, act) && act.CheckStop?
    ensures Does(s, Stepped(s, t, act), t, act, u, b, op)
  {
  }

  lemma DoesGetSqe(s: State, t: Tid, act: Act, u: Tid, b: nat, op: Op)
    requires Enabled(s, t, act) && act.GetSqe?
    ensures Does(s, Stepped(s, t, act), t, act, u, b, op)
  {
  }

  lemma DoesSpawn(s: State, t: Tid, act: Act, u: Tid, b: nat, op: Op)
    requires Enabled(s, t, act) && act == Spawn(true)
    ensures Does(s, Stepped(s, t, act), t, act, u, b, op)
  {
  }

  lemma DoesSpawnFail(s: State, t: Tid, act: Act, u: Tid, b: nat, op: Op)
    requires Enabled(s, t, act) && act == Spawn(false)
    ensures Does(s, Stepped(s, t, act), t, act, u, b, op)
  {
  }

  lemma DoesInstallPlain(s: State, t: Tid, act: Act, u: Tid, b: nat, op: Op)
    requires Enabled(s, t, act) && act.Install? && !Rec(s, PcOf(s, t).op).stoppable
    ensures Does(s, Stepped(s, t, act), t, act, u, b, op)
  {
  }

  lemma DoesInstallStopped(s: State, t: Tid, act: Act, u: Tid, b: nat, op: Op)
    requires Enabled(s, t, act) && act.Install? && StopAsked(s, PcOf(s, t).op)
    ensures Does(s, Stepped(s, t, act), t, act, u, b, op)
  {
  }

  lemma DoesInstallCallback(s: State, t: Tid, act: Act, u: Tid, b: nat, op: Op)
    requires Enabled(s, t, act) && act.Install? && Rec(s, PcOf(s, t).op).stoppable && Rec(s, PcOf(s, t).op).token !in s.requested
    ensures Does(s, Stepped(s, t, act), t, act, u, b, op)
  {
  }

  lemma DoesFireInline(s: State, t: Tid, act: Act, u: Tid, b: nat, op: Op)
    requires Enabled(s, t, act) && act.FireInline?
    ensures Does(s, Stepped(s, t, act), t, act, u, b, op)
  {
  }

  lemma DoesRemotePush(s: State, t: Tid, act: Act, u: Tid, b: nat, op: Op)
    requires Enabled(s, t, act) && act.RemotePush?
    ensures Does(s, Stepped(s, t, act), t, act, u, b, op)
  {
  }

  lemma DoesAroundPush(s: State, t: Tid, act: Act, u: Tid, b: nat, op: Op)
    requires Enabled(s, t, act) && (act.Invoke? || act.RemoteReturn?)
    ensures Does(s, Stepped(s, t, act), t, act, u, b, op)
  {
  }

  lemma DoesOnRing(s: State, t: Tid, act: Act, u: Tid, b: nat, op: Op)
    requires Enabled(s, t, act) && OnRing(act)
    ensures Does(s, Stepped(s, t, act), t, act, u, b, op)
  {
  }

  lemma DoesReapOwn(s: State, t: Tid, act: Act, u: Tid, b: nat, op: Op)
    requires Enabled(s, t, act) && act.Reap? && RingOf(s, t).cq[0].Perform?
    ensures Does(s, Stepped(s, t, act), t, act, u, b, op)
  {
  }

  lemma DoesReapCancel(s: State, t: Tid, act: Act, u: Tid, b: nat, op: Op)
    requires Enabled(s, t, act) && act.Reap? && RingOf(s, t).cq[0].Cancel?
    ensures Does(s, Stepped(s, t, act), t, act, u, b, op)
  {
  }

  lemma DoesReset(s: State, t: Tid, act: Act, u: Tid, b: nat, op: Op)
    requires Enabled(s, t, act) && act.Reset?
    ensures Does(s, Stepped(s, t, act), t, act, u, b, op)
  {
  }

  lemma DoesTakeBucket(s: State, t: Tid, act: Act, u: Tid, b: nat, op: Op)
    requires Enabled(s, t, act) && act.TakeBucket?
    ensures Does(s, Stepped(s, t, act), t, act, u, b, op)
  {
  }

  lemma DoesPutFrontFound(s: State, t: Tid, act: Act, u: Tid, b: nat, op: Op)
    requires Enabled(s, t, act) && act.PutFront? && PcOf(s, t).op in PcOf(s, t).taken
    ensures Does(s, Stepped(s, t, act), t, act, u, b, op)
  {
  }

  lemma DoesPutFrontAbsent(s: State, t: Tid, act: Act, u: Tid, b: nat, op: Op)
    requires Enabled(s, t, act) && act.PutFront? && PcOf(s, t).op !in PcOf(s, t).taken
    ensures Does(s, Stepped(s, t, act), t, act, u, b, op)
  {
  }

  lemma DoesPutBack(s: State, t: Tid, act: Act, u: Tid, b: nat, op: Op)
    requires Enabled(s, t, act) && act.PutBack?
    ensures Does(s, Stepped(s, t, act), t, act, u, b, op)
  {
  }

  lemma DoesDeliver(s: State, t: Tid, act: Act, u: Tid, b: nat, op: Op)
    requires Enabled(s, t, act) && act.Deliver?
    ensures Does(s, Stepped(s, t, act), t, act, u, b, op)
  {
  }

  lemma DoesCancelTake(s: State, t: Tid, act: Act, u: Tid, b: nat, op: Op)
    requires Enabled(s, t, act) && act.CancelTake?
    ensures Does(s, Stepped(s, t, act), t, act, u, b, op)
  {
  }

  lemma DoesCancelLeave(s: State, t: Tid, act: Act, u: Tid, b: nat, op: Op)
    requires Enabled(s, t, act) && (act.CancelPutBack? || act.CancelEnd?)
    ensures Does(s, Stepped(s, t, act), t, act, u, b, op)
  {
  }

  lemma DoesCancelSend(s: State, t: Tid, act: Act, u: Tid, b: nat, op: Op)
    requires Enabled(s, t, act) && act.CancelSend?
    ensures Does(s, Stepped(s, t, act), t, act, u, b, op)
  {
  }

  lemma DoesInStart(s: State, t: Tid, act: Act, u: Tid, b: nat, op: Op)
    requires Enabled(s, t, act) && InStart(act)
    ensures Does(s, Stepped(s, t, act), t, act, u, b, op)
  {
    if act.CheckStop? { DoesCheckStop(s, t, act, u, b, op); }
    else if act.GetSqe? { DoesGetSqe(s, t, act, u, b, op); }
    else if act == Spawn(true) { DoesSpawn(s, t, act, u, b, op); }
    else if act.Spawn? { DoesSpawnFail(s, t, act, u, b, op); }
    else if act.FireInline? { DoesFireInline(s, t, act, u, b, op); }
    else if StopAsked(s, PcOf(s, t).op) { DoesInstallStopped(s, t, act, u, b, op); }
    else if Rec(s, PcOf(s, t).op).stoppable { DoesInstallCallback(s, t, act, u, b, op); }
    else { DoesInstallPlain(s, t, act, u, b, op); }
  }

  lemma DoesInComplete(s: State, t: Tid, act: Act, u: Tid, b: nat, op: Op)
    requires Enabled(s, t, act) && InComplete(act)
    ensures Does(s, Stepped(s, t, act), t, act, u, b, op)
  {
    if act.Reap? {
      if RingOf(s, t).cq[0].Perform? { DoesReapOwn(s, t, act, u, b, op); } else { DoesReapCancel(s, t, act, u, b, op); }
    }
    else if act.Reset? { DoesReset(s, t, act, u, b, op); }
    else if act.TakeBucket? { DoesTakeBucket(s, t, act, u, b, op); }
    else if act.PutBack? { DoesPutBack(s, t, act, u, b, op); }
    else if act.Deliver? { DoesDeliver(s, t, act, u, b, op); }
    else if PcOf(s, t).op in PcOf(s, t).taken { DoesPutFrontFound(s, t, act, u, b, op); }
    else { DoesPutFrontAbsent(s, t, act, u, b, op); }
  }

  /** Every step does what its line says. */
  lemma EveryStepDoes(s: State, t: Tid, act: Act, u: Tid, b: nat, op: Op)
    requires Enabled(s, t, act)
    ensures Does(s, Stepped(s, t, act), t, act, u, b, op)
  {
    if InStart(act) { DoesInStart(s, t, act, u, b, op); }
    else if InComplete(act) { DoesInComplete(s, t, act, u, b, op); }
    else if act.Connect? || act.RequestStop? { DoesFromOutside(s, t, act, u, b, op); }
    else if ByUser(act) { DoesToStart(s, t, act, u, b, op); }
    else if act.RemotePush? { DoesRemotePush(s, t, act, u, b, op); }
    else if ByStopper(act) { DoesAroundPush(s, t, act, u, b, op); }
    else if OnRing(act) { DoesOnRing(s, t, act, u, b, op); }
    else if act.CancelSend? { DoesCancelSend(s, t, act, u, b, op); }
    else if act.CancelTake? { DoesCancelTake(s, t, act, u, b, op); }
    else { DoesCancelLeave(s, t, act, u, b, op); }
  }
}
