/**
 Whole calls in the life of an operation: how `start` can return, which signal each result of the kernel leads to, that a
 stop callback runs to its end, that no thread is ever stuck, and that every CQE answers one SQE.
 */
module LifecycleCalls {
  import opened Lists
  import opened Lifecycle
  import opened LifecycleRuns
  import opened LifecycleSteps
  import opened LifecycleTheorems

  /** What step k does, seen from a thread, one of its buckets and an operation. */
  predicate DoesAt(ss: seq<State>, acts: seq<(Tid, Act)>, k: int, u: Tid, b: nat, op: Op)
    requires |ss| == |acts| + 1 && 0 <= k < |acts|
  {
    Does(ss[k], ss[k + 1], acts[k].0, acts[k].1, u, b, op)
  }

  lemma RunDoes(ss: seq<State>, acts: seq<(Tid, Act)>, k: nat, u: Tid, b: nat, op: Op)
    requires Run(ss, acts) && k < |acts|
    ensures DoesAt(ss, acts, k, u, b, op)
  {
    EveryStepDoes(ss[k], acts[k].0, acts[k].1, u, b, op);
  }

  /** Where thread t is led, by its own steps and by nobody else's. */
  predicate Led(ss: seq<State>, acts: seq<(Tid, Act)>, k: int, t: Tid)
    requires |ss| == |acts| + 1 && 0 <= k < |acts|
  {
    if acts[k].0 == t then Leads(ss[k], ss[k + 1], t, acts[k].1) else PcOf(ss[k + 1], t) == PcOf(ss[k], t)
  }

  ghost predicate AllLed(ss: seq<State>, acts: seq<(Tid, Act)>, t: Tid)
    requires |ss| == |acts| + 1
  {
    PcOf(ss[0], t) == Idle && forall k {:trigger Led(ss, acts, k, t)} :: 0 <= k < |acts| ==> Led(ss, acts, k, t)
  }

  lemma RunLed(ss: seq<State>, acts: seq<(Tid, Act)>, t: Tid)
    requires Run(ss, acts)
    ensures AllLed(ss, acts, t)
  {
    forall k | 0 <= k < |acts| ensures Led(ss, acts, k, t) {
      RunDoes(ss, acts, k, t, 0, 0);
    }
  }

  // ---------------------------------------------------------------- complete

  /** The thread is in `complete` for this operation, with this result. */
  predicate Completing(pc: Pc, op: Op, res: int) {
    (pc.FinReset? || pc.FinTake? || pc.FinFront? || pc.FinBack? || pc.FinSignal?) && pc.op == op && pc.res == res
  }

  /** This step takes the operation's CQE, with this result. */
  predicate TakesCqe(s: State, step: (Tid, Act), t: Tid, op: Op, res: int) {
    step == (t, Reap(res)) && RingOf(s, t).cq != [] && RingOf(s, t).cq[0] == Perform(op)
  }

  /** A thread in `complete` has come there by reaping the CQE, and nothing has changed the result since. */
  lemma {:induction false} CameFromReap(ss: seq<State>, acts: seq<(Tid, Act)>, j: nat, t: Tid, op: Op, res: int) returns (i: nat)
    requires |ss| == |acts| + 1 && j < |ss| && AllLed(ss, acts, t) && Completing(PcOf(ss[j], t), op, res)
    ensures i < j && TakesCqe(ss[i], acts[i], t, op, res)
    ensures forall k {:trigger ss[k]} :: i < k <= j ==> Completing(PcOf(ss[k], t), op, res)
  {
    assert Led(ss, acts, j - 1, t);
    if Completing(PcOf(ss[j - 1], t), op, res) {
      i := CameFromReap(ss, acts, j - 1, t, op, res);
    } else {
      i := j - 1;
    }
  }

  /** The kernel reported success, or a timer ran out. */
  predicate Succeeds(timer: bool, res: int) {
    res >= 0 || (timer && (res == -ETIME || res == -ETIMEDOUT))
  }

  /**
   Every completion reports the result of the operation's own CQE: a value if and only if it is a success, `set_stopped`
   if and only if the kernel cancelled it, and otherwise the kernel's error.
   */
  lemma EveryResultIsReported(ss: seq<State>, acts: seq<(Tid, Act)>, j: nat, t: Tid) returns (i: nat, op: Op, res: int)
    requires Run(ss, acts) && j < |acts| && acts[j] == (t, Deliver)
    ensures i < j && TakesCqe(ss[i], acts[i], t, op, res)
    ensures forall k {:trigger ss[k]} :: i < k <= j ==> Completing(PcOf(ss[k], t), op, res)
    ensures PcOf(ss[j + 1], t) == Idle && Rec(ss[j], op).signals == []
    ensures
      var success, signals := Succeeds(Rec(ss[j], op).timer, res), Rec(ss[j + 1], op).signals;
      && (signals == [SetValue(res)] <==> success)
      && (signals == [SetStopped] <==> res == -ECANCELED)
      && (signals == [SetError(-res)] <==> !success && res != -ECANCELED)
  {
    assert Enabled(ss[j], t, Deliver);
    op, res := PcOf(ss[j], t).op, PcOf(ss[j], t).res;
    RunLed(ss, acts, t);
    i := CameFromReap(ss, acts, j, t, op, res);
    Delivers(ss, acts, j, t, op, res);
  }

  lemma Delivers(ss: seq<State>, acts: seq<(Tid, Act)>, j: nat, t: Tid, op: Op, res: int)
    requires Run(ss, acts) && j < |acts| && acts[j] == (t, Deliver) && PcOf(ss[j], t) == FinSignal(op, res)
    ensures PcOf(ss[j + 1], t) == Idle && Rec(ss[j], op).signals == []
    ensures |Rec(ss[j + 1], op).signals| == 1 && Reports(Rec(ss[j + 1], op).signals[0], Rec(ss[j], op).timer, res)
  {
    RunDoes(ss, acts, j, t, 0, op);
    NoSignalYet(ss, acts, j, t, op);
  }

  lemma NoSignalYet(ss: seq<State>, acts: seq<(Tid, Act)>, j: nat, t: Tid, op: Op)
    requires Run(ss, acts) && j < |ss| && On(PcOf(ss[j], t), op)
    ensures Rec(ss[j], op).signals == []
  {
    EveryStateInv(ss, acts, j);
    assert Tallied(ss[j].requested, Rec(ss[j], op));
  }

  /** Signals are sent by three lines only, and `SetSpawnError` by one of them: the restart task could not be spawned. */
  lemma OnlyThreeLinesSignal(ss: seq<State>, acts: seq<(Tid, Act)>, k: nat, op: Op)
    requires Run(ss, acts) && k < |acts| && !(acts[k].1.Connect? && acts[k].1.op == op)
    ensures
      var (t, act), pc := acts[k], PcOf(ss[k], acts[k].0);
      && (Rec(ss[k + 1], op).signals != Rec(ss[k], op).signals ==> On(pc, op) && (act.CheckStop? || act == Spawn(false) || act.Deliver?))
      && (Rec(ss[k], op).signals == [] && Rec(ss[k + 1], op).signals == [SetSpawnError] <==> pc == StartSpawn(op) && act == Spawn(false))
  {
    RunDoes(ss, acts, k, acts[k].0, 0, op);
    if On(PcOf(ss[k], acts[k].0), op) {
      NoSignalYet(ss, acts, k, acts[k].0, op);
    }
  }

  // ---------------------------------------------------------------- start

  predicate Starting(pc: Pc, op: Op) {
    (pc.StartCheck? || pc.StartSqe? || pc.StartSpawn? || pc.StartInstall? || pc.StartFire?) && pc.op == op
  }

  /** The thread calls `start`: for the user, or as a restart task. */
  predicate Begins(s: State, step: (Tid, Act), t: Tid, op: Op) {
    step.0 == t && match step.1
                   case BeginStart(x) => x == op
                   case LaunchRestart(k) => k < |s.tasks| && s.tasks[k] == op
                   case _ => false
  }

  /** The stop test was passed. */
  ghost predicate DidCheck(ss: seq<State>, acts: seq<(Tid, Act)>, i: nat, j: nat, t: Tid, op: Op)
    requires j <= |acts| <= |ss|
  {
    exists m {:trigger acts[m]} :: i < m < j && acts[m] == (t, CheckStop) && !StopAsked(ss[m], op)
  }

  /** The SQ was full. */
  ghost predicate FoundFull(ss: seq<State>, acts: seq<(Tid, Act)>, i: nat, j: nat, t: Tid)
    requires j <= |acts| <= |ss|
  {
    exists m {:trigger acts[m]} :: i < m < j && acts[m] == (t, GetSqe) && |RingOf(ss[m], t).sq| >= ss[m].entries
  }

  /** The SQ had room. */
  ghost predicate GotSqe(ss: seq<State>, acts: seq<(Tid, Act)>, i: nat, j: nat, t: Tid)
    requires j <= |acts| <= |ss|
  {
    exists m {:trigger acts[m]} :: i < m < j && acts[m] == (t, GetSqe) && |RingOf(ss[m], t).sq| < ss[m].entries
  }

  ghost predicate Passed(ss: seq<State>, acts: seq<(Tid, Act)>, i: nat, j: nat, t: Tid, op: Op)
    requires j <= |acts| <= |ss| && j < |ss|
  {
    var pc := PcOf(ss[j], t);
    && i < j && Begins(ss[i], acts[i], t, op)
    && (!pc.StartCheck? ==> DidCheck(ss, acts, i, j, t, op))
    && (pc.StartSpawn? ==> FoundFull(ss, acts, i, j, t))
    && (pc.StartInstall? || pc.StartFire? ==> GotSqe(ss, acts, i, j, t))
  }

  lemma PassesOn(ss: seq<State>, acts: seq<(Tid, Act)>, i: nat, j: nat, t: Tid, op: Op)
    requires |ss| == |acts| + 1 && j < |acts| && Passed(ss, acts, i, j, t, op) && Led(ss, acts, j, t)
    requires Starting(PcOf(ss[j], t), op) && Starting(PcOf(ss[j + 1], t), op)
    ensures Passed(ss, acts, i, j + 1, t, op)
  {
    if acts[j].0 == t {
      assert acts[j] == (t, acts[j].1);
    }
  }

  /** A thread in `start` has come there line by line. */
  lemma {:induction false} CameFromStart(ss: seq<State>, acts: seq<(Tid, Act)>, j: nat, t: Tid, op: Op) returns (i: nat)
    requires |ss| == |acts| + 1 && j < |ss| && AllLed(ss, acts, t) && Starting(PcOf(ss[j], t), op)
    ensures Passed(ss, acts, i, j, t, op)
    ensures forall k {:trigger ss[k]} :: i < k <= j ==> Starting(PcOf(ss[k], t), op)
  {
    assert Led(ss, acts, j - 1, t);
    if Starting(PcOf(ss[j - 1], t), op) {
      i := CameFromStart(ss, acts, j - 1, t, op);
      PassesOn(ss, acts, i, j - 1, t, op);
    } else {
      i := j - 1;
    }
  }

  /** How `start` has returned. */
  ghost predicate HasReturned(ss: seq<State>, acts: seq<(Tid, Act)>, i: nat, j: nat, t: Tid, op: Op)
    requires j < |acts| < |ss|
  {
    var s, s' := ss[j], ss[j + 1];
    match acts[j].1
    // stopped at once
    case CheckStop => StopAsked(s, op) && Rec(s', op).signals == [SetStopped]
    // no SQE was free: the operation will be restarted, unless that fails
    case Spawn(ok) =>
      && DidCheck(ss, acts, i, j, t, op) && FoundFull(ss, acts, i, j, t)
      && s'.tasks == (if ok then s.tasks + [op] else s.tasks)
      && Rec(s', op).signals == if ok then [] else [SetSpawnError]
    // in flight
    case Install =>
      && DidCheck(ss, acts, i, j, t, op) && GotSqe(ss, acts, i, j, t) && Entries(s', t, op) == 1
      && !StopAsked(s, op) && Rec(s', op).callback == (if Rec(s, op).stoppable then Registered else Absent)
    // in flight, and queued for cancellation already
    case FireInline =>
      && DidCheck(ss, acts, i, j, t, op) && GotSqe(ss, acts, i, j, t) && Entries(s', t, op) == 1
      && BucketOf(s', t, Home(op)) == [op] + BucketOf(s, t, Home(op))
    case _ => false
  }

  /**
   `start` tests for a stop first and then tries to get an SQE, and returns in one of four ways: stopped, to be restarted
   because the SQ was full, in flight, or in flight with its stop request queued.
   */
  lemma StartReturns(ss: seq<State>, acts: seq<(Tid, Act)>, j: nat, t: Tid, op: Op) returns (i: nat)
    requires Run(ss, acts) && j < |acts| && acts[j].0 == t
    requires Starting(PcOf(ss[j], t), op) && !Starting(PcOf(ss[j + 1], t), op)
    ensures i < j && Begins(ss[i], acts[i], t, op) && PcOf(ss[j + 1], t) == Idle
    ensures forall k {:trigger ss[k]} :: i < k <= j ==> Starting(PcOf(ss[k], t), op)
    ensures HasReturned(ss, acts, i, j, t, op)
  {
    RunLed(ss, acts, t);
    i := CameFromStart(ss, acts, j, t, op);
    assert Led(ss, acts, j, t);
    if acts[j].1.Install? || acts[j].1.FireInline? {
      ReturnsInFlight(ss, acts, i, j, t, op);
    } else {
      ReturnsEarly(ss, acts, i, j, t, op);
    }
  }

  lemma ReturnsEarly(ss: seq<State>, acts: seq<(Tid, Act)>, i: nat, j: nat, t: Tid, op: Op)
    requires Run(ss, acts) && j < |acts| && Passed(ss, acts, i, j, t, op) && Led(ss, acts, j, t) && acts[j].0 == t
    requires Starting(PcOf(ss[j], t), op) && PcOf(ss[j + 1], t) == Idle && (acts[j].1.CheckStop? || acts[j].1.Spawn?)
    ensures HasReturned(ss, acts, i, j, t, op)
  {
    RunDoes(ss, acts, j, t, Home(op), op);
    NoSignalYet(ss, acts, j, t, op);
  }

  lemma ReturnsInFlight(ss: seq<State>, acts: seq<(Tid, Act)>, i: nat, j: nat, t: Tid, op: Op)
    requires Run(ss, acts) && j < |acts| && Passed(ss, acts, i, j, t, op) && Led(ss, acts, j, t) && acts[j].0 == t
    requires Starting(PcOf(ss[j], t), op) && PcOf(ss[j + 1], t) == Idle && (acts[j].1.Install? || acts[j].1.FireInline?)
    ensures HasReturned(ss, acts, i, j, t, op)
  {
    RunDoes(ss, acts, j, t, Home(op), op);
    InFlightAfter(ss, acts, j, t, op);
  }

  /** What the invariant says about the last two lines. */
  lemma InFlightAfter(ss: seq<State>, acts: seq<(Tid, Act)>, j: nat, t: Tid, op: Op)
    requires Run(ss, acts) && j < |acts| && acts[j].0 == t
    requires
      || (acts[j].1.Install? && PcOf(ss[j + 1], t) == Idle && PcOf(ss[j], t) == StartInstall(op))
      || (acts[j].1.FireInline? && PcOf(ss[j], t) == StartFire(op))
    ensures Entries(ss[j + 1], t, op) == 1
    ensures acts[j].1.FireInline? ==> Rec(ss[j], op).local == t
    ensures acts[j].1.Install? ==> Rec(ss[j], op).callback.Absent?
  {
    EveryStateInv(ss, acts, j);
    assert On(PcOf(ss[j], t), op);
    assert Coherent(Rec(ss[j], op), ThreadPc(ss[j], Rec(ss[j], op).phase));
    assert Entries(ss[j], t, op) == One(InRing(ss[j], t, op));
    RunDoes(ss, acts, j, t, 0, op);
  }

  // ---------------------------------------------------------------- what the user said

  /** Step k requests this stop. */
  predicate RequestsAt(acts: seq<(Tid, Act)>, k: int, token: Token)
    requires 0 <= k < |acts|
  {
    acts[k].1.RequestStop? && acts[k].1.token == token
  }

  lemma Requests(ss: seq<State>, acts: seq<(Tid, Act)>, k: nat, token: Token)
    requires Run(ss, acts) && k < |acts|
    ensures token in ss[k + 1].requested <==> token in ss[k].requested || RequestsAt(acts, k, token)
  {
    RunDoes(ss, acts, k, 0, 0, 0);
  }

  /** A stop is requested if and only if somebody requested it. */
  lemma {:induction false} RequestedIff(ss: seq<State>, acts: seq<(Tid, Act)>, i: nat, token: Token)
    requires Run(ss, acts) && i < |ss|
    ensures token in ss[i].requested <==> exists k {:trigger RequestsAt(acts, k, token)} :: 0 <= k < i && RequestsAt(acts, k, token)
  {
    if i > 0 {
      RequestedIff(ss, acts, i - 1, token);
      Requests(ss, acts, i - 1, token);
    }
  }

  /** Throughout its life an operation is what it was connected as. */
  lemma {:induction false} ConnectedAs(ss: seq<State>, acts: seq<(Tid, Act)>, i: nat, j: nat, op: Op)
    requires Run(ss, acts) && i < j <= |acts| && acts[i].1.Connect? && acts[i].1.op == op && SameLife(acts, i + 1, j, op)
    ensures
      var act, r := acts[i].1, Rec(ss[j], op);
      r.token == act.token && r.stoppable == act.stoppable && r.timer == act.timer
    decreases j
  {
    RunDoes(ss, acts, j - 1, 0, 0, op);
    if i + 1 < j {
      ConnectedAs(ss, acts, i, j - 1, op);
      assert acts[j - 1].1.Connect? ==> acts[j - 1].1.op != op;
    }
  }

  // ---------------------------------------------------------------- the stop callback

  /** One line of a stop callback. */
  lemma CallbackStep(s: State, u: Tid, act: Act, op: Op)
    requires act in {Invoke(op), RemotePush(op), RemoteReturn(op)} && Enabled(s, u, act)
    ensures
      var s', r := Stepped(s, u, act), Rec(s, op);
      && Rec(s', op).callback == (if act.Invoke? then Invoked else if act.RemotePush? then Pushed else Returned)
      && BucketOf(s', r.local, Home(op)) == (if act.RemotePush? then [op] else []) + BucketOf(s, r.local, Home(op))
  {
    EveryStepDoes(s, u, act, Rec(s, op).local, Home(op), op);
  }

  /** Whoever requested the stop of an operation in flight can run its callback to the end, in three steps. */
  lemma CallbackRuns(s: State, u: Tid, op: Op) returns (s1: State, s2: State, s3: State)
    requires Rec(s, op).callback.Registered? && Rec(s, op).token in s.requested
    ensures Enabled(s, u, Invoke(op)) && s1 == Stepped(s, u, Invoke(op))
    ensures Enabled(s1, u, RemotePush(op)) && s2 == Stepped(s1, u, RemotePush(op))
    ensures Enabled(s2, u, RemoteReturn(op)) && s3 == Stepped(s2, u, RemoteReturn(op))
    ensures BucketOf(s2, Rec(s1, op).local, Home(op)) == [op] + BucketOf(s1, Rec(s1, op).local, Home(op))
    ensures Rec(s3, op).callback.Returned?
  {
    s1 := Stepped(s, u, Invoke(op));
    CallbackStep(s, u, Invoke(op), op);
    s2 := Stepped(s1, u, RemotePush(op));
    CallbackStep(s1, u, RemotePush(op), op);
    s3 := Stepped(s2, u, RemoteReturn(op));
    CallbackStep(s2, u, RemoteReturn(op), op);
  }

  /** The callback is running on some thread. */
  predicate UnderWay(s: State, op: Op) {
    Rec(s, op).callback.Invoked? || Rec(s, op).callback.Pushed?
  }

  /** A running callback takes its own two steps, and nothing else touches it. */
  lemma CallbackGoesOn(ss: seq<State>, acts: seq<(Tid, Act)>, k: nat, op: Op)
    requires Run(ss, acts) && k < |acts| && UnderWay(ss[k], op)
    ensures
      var before, after := Rec(ss[k], op).callback, Rec(ss[k + 1], op).callback;
      && (before.Invoked? ==> after == if acts[k].1 == RemotePush(op) then Pushed else Invoked)
      && (before.Pushed? ==> after == if acts[k].1 == RemoteReturn(op) then Callback.Returned else Pushed)
  {
    var s, t, act := ss[k], acts[k].0, acts[k].1;
    EveryStateInv(ss, acts, k);
    assert Enabled(s, t, act) && Coherent(Rec(s, op), ThreadPc(s, Rec(s, op).phase));
    RunDoes(ss, acts, k, t, 0, op);
    assert On(PcOf(s, t), op) ==> Rec(s, op).phase == Running(t);
  }

  /**
   `stop_callback.reset()` waits: a stop callback that was invoked pushes its operation and returns before it is gone, and
   is not invoked a second time meanwhile.
   */
  lemma {:induction false} CallbackIsNotCutShort(ss: seq<State>, acts: seq<(Tid, Act)>, i: nat, j: nat, op: Op) returns (m: nat, n: nat)
    requires Run(ss, acts) && i < j < |ss| && acts[i].1 == Invoke(op) && !UnderWay(ss[j], op)
    ensures i < m < n < j && acts[m].1 == RemotePush(op) && acts[n].1 == RemoteReturn(op)
    ensures forall k {:trigger ss[k]} :: i < k <= n ==> Rec(ss[k], op).callback == if k <= m then Invoked else Pushed
  {
    RunDoes(ss, acts, i, 0, 0, op);
    m := StaysUntil(ss, acts, i + 1, j, op, Invoked);
    CallbackGoesOn(ss, acts, m, op);
    n := StaysUntil(ss, acts, m + 1, j, op, Pushed);
    CallbackGoesOn(ss, acts, n, op);
  }

  /** The first moment after which the callback is no longer at this point. */
  lemma {:induction false} StaysUntil(ss: seq<State>, acts: seq<(Tid, Act)>, i: nat, j: nat, op: Op, c: Callback) returns (m: nat)
    requires |ss| == |acts| + 1 && i < j < |ss| && Rec(ss[i], op).callback == c && Rec(ss[j], op).callback != c
    ensures i <= m < j && Rec(ss[m + 1], op).callback != c
    ensures forall k {:trigger ss[k]} :: i <= k <= m ==> Rec(ss[k], op).callback == c
    decreases j - i
  {
    if Rec(ss[i + 1], op).callback != c {
      m := i;
    } else {
      m := StaysUntil(ss, acts, i + 1, j, op, c);
    }
  }

  // ---------------------------------------------------------------- the rings

  /** What thread t's ring has seen: SQEs acquired and how many of them submitted, CQEs posted and how many consumed. */
  datatype RingLog = RingLog(acquired: seq<Entry>, submitted: nat, posted: seq<Entry>, consumed: nat)

  /** What a step adds to the log. */
  function LogStep(l: RingLog, s: State, step: (Tid, Act), t: Tid): RingLog {
    var pc, r := PcOf(s, t), RingOf(s, t);
    if step.0 != t then l
    else
      match step.1
      case GetSqe => if pc.StartSqe? && |r.sq| < s.entries then l.(acquired := l.acquired + [Perform(pc.op)]) else l
      case CancelSend => if pc.Cancelling? && pc.hand != [] then l.(acquired := l.acquired + [Cancel(pc.hand[0])]) else l
      case Submit(n) => l.(submitted := l.submitted + n)
      case KernelDone(k) => if k < |r.kernel| then l.(posted := l.posted + [r.kernel[k]]) else l
      case Reap(_) => l.(consumed := l.consumed + 1)
      case _ => l
  }

  function Logged(ss: seq<State>, acts: seq<(Tid, Act)>, i: nat, t: Tid): RingLog
    requires |ss| == |acts| + 1 && i < |ss|
  {
    if i == 0 then RingLog([], 0, [], 0) else LogStep(Logged(ss, acts, i - 1, t), ss[i - 1], acts[i - 1], t)
  }

  /** The ring holds what has been acquired and not consumed. */
  predicate Conserved(r: Ring, l: RingLog) {
    && l.submitted <= |l.acquired| && r.sq == l.acquired[l.submitted..]
    && l.consumed <= |l.posted| && r.cq == l.posted[l.consumed..]
    && multiset(r.kernel) + multiset(l.posted) == multiset(l.acquired[..l.submitted])
  }

  lemma ConservesAcquired(r: Ring, r': Ring, l: RingLog, l': RingLog, e: seq<Entry>)
    requires Conserved(r, l) && r'.sq == r.sq + e && r'.kernel == r.kernel && r'.cq == r.cq && l' == l.(acquired := l.acquired + e)
    ensures Conserved(r', l')
  {
    assert l'.acquired[..l.submitted] == l.acquired[..l.submitted];
  }

  lemma ConservesSubmitted(r: Ring, r': Ring, l: RingLog, l': RingLog, n: nat)
    requires Conserved(r, l) && n <= |r.sq| && r'.sq == r.sq[n..] && r'.kernel == r.kernel + r.sq[..n] && r'.cq == r.cq
    requires l' == l.(submitted := l.submitted + n)
    ensures Conserved(r', l')
  {
    assert l.acquired[..l.submitted + n] == l.acquired[..l.submitted] + r.sq[..n];
  }

  lemma ConservesPosted(r: Ring, r': Ring, l: RingLog, l': RingLog, k: nat)
    requires Conserved(r, l) && k < |r.kernel|
    requires r'.sq == r.sq && r'.kernel == RemoveAt(r.kernel, k) && r'.cq == r.cq + [r.kernel[k]]
    requires l' == l.(posted := l.posted + [r.kernel[k]])
    ensures Conserved(r', l')
  {
    assert r.kernel == r.kernel[..k] + [r.kernel[k]] + r.kernel[k + 1..];
  }

  /** One step of any thread. */
  lemma ConservesStep(s: State, s': State, step: (Tid, Act), t: Tid, l: RingLog)
    requires Conserved(RingOf(s, t), l) && RingFollows(s, s', step.0, step.1, t)
    ensures Conserved(RingOf(s', t), LogStep(l, s, step, t))
  {
    var r, r', l' := RingOf(s, t), RingOf(s', t), LogStep(l, s, step, t);
    if step.0 == t {
      match step.1
      case GetSqe => ConservesAcquired(r, r', l, l', l'.acquired[|l.acquired|..]);
      case CancelSend => ConservesAcquired(r, r', l, l', l'.acquired[|l.acquired|..]);
      case Submit(n) => ConservesSubmitted(r, r', l, l', n);
      case KernelDone(i) => ConservesPosted(r, r', l, l', i);
      case _ =>
    }
  }

  /** What step k does to thread t's ring. */
  predicate RingMoves(ss: seq<State>, acts: seq<(Tid, Act)>, k: int, t: Tid)
    requires |ss| == |acts| + 1 && 0 <= k < |acts|
  {
    RingFollows(ss[k], ss[k + 1], acts[k].0, acts[k].1, t)
  }

  ghost predicate RingAlways(ss: seq<State>, acts: seq<(Tid, Act)>, t: Tid)
    requires |ss| == |acts| + 1
  {
    forall k {:trigger RingMoves(ss, acts, k, t)} :: 0 <= k < |acts| ==> RingMoves(ss, acts, k, t)
  }

  lemma {:induction false} StaysConserved(ss: seq<State>, acts: seq<(Tid, Act)>, i: nat, t: Tid)
    requires |ss| == |acts| + 1 && i < |ss| && RingAlways(ss, acts, t) && RingOf(ss[0], t) == Ring([], [], [], 0, 0)
    ensures Conserved(RingOf(ss[i], t), Logged(ss, acts, i, t))
  {
    if i > 0 {
      StaysConserved(ss, acts, i - 1, t);
      assert RingMoves(ss, acts, i - 1, t);
      ConservesStep(ss[i - 1], ss[i], acts[i - 1], t, Logged(ss, acts, i - 1, t));
    }
  }

  /**
   Conservation on every ring of every run: SQEs are submitted in the order in which they were acquired, CQEs consumed in
   the order in which they were posted, and every CQE is that of exactly one submitted SQE.
   */
  lemma EntriesConserved(ss: seq<State>, acts: seq<(Tid, Act)>, i: nat, t: Tid)
    requires Run(ss, acts) && i < |ss|
    ensures Conserved(RingOf(ss[i], t), Logged(ss, acts, i, t))
  {
    forall k | 0 <= k < |acts| ensures RingMoves(ss, acts, k, t) {
      RunDoes(ss, acts, k, t, 0, 0);
    }
    StaysConserved(ss, acts, i, t);
  }
}
