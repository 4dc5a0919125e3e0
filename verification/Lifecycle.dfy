/**
 The life of an I/O operation under every interleaving of its local thread, the threads that request a stop, the
 threads that launch restarts, and the kernel. One step is one access to shared state: a stop-token test, an SQE
 acquisition, a queue operation (atomic, by CasQueue), a callback registration, a CQE, a signal.
 Transfer and terminal runs are not steps of this model.
 */
module Lifecycle {
  import opened Lists

  type Op = nat
  type Tid = nat
  type Token = nat

  const BUCKETS: nat := 16

  const ECANCELED: int := 125
  const ETIME: int := 62
  const ETIMEDOUT: int := 110

  /** How a receiver is completed. */
  datatype Signal = SetValue(res: int) | SetStopped | SetError(code: int) | SetSpawnError

  /** `stop_callback`: empty, registered, running on another thread (before or after its push), finished, or run by `emplace`. */
  datatype Callback = Absent | Registered | Invoked | Pushed | Returned | Inline

  /** What became of the stop request of an operation. */
  datatype Request = NotMade | Pending | Sent | Withdrawn

  datatype Phase = Fresh | Running(t: Tid) | Queued | InFlight(t: Tid) | Done

  /** `linked` says that the intrusive link may be non-null; `res` is the result of the operation's own CQE. */
  datatype Record = Record(
    token: Token, stoppable: bool, timer: bool,
    phase: Phase, callback: Callback, local: Tid,
    request: Request, linked: bool, cancels: nat,
    signals: seq<Signal>, result: int)

  datatype Entry = Perform(op: Op) | Cancel(op: Op)

  /** A local ring. `reaped` CQEs have been consumed but not yet subtracted from `inflight`. */
  datatype Ring = Ring(sq: seq<Entry>, kernel: seq<Entry>, cq: seq<Entry>, reaped: nat, inflight: int)

  /** Where a thread stands in `start`, in `complete` with `uninstall_stoppable_callback`, or in the cancel pass. */
  datatype Pc =
    | Idle
    | StartCheck(op: Op) | StartSqe(op: Op) | StartSpawn(op: Op) | StartInstall(op: Op) | StartFire(op: Op)
    | FinReset(op: Op, res: int) | FinTake(op: Op, res: int) | FinFront(op: Op, res: int, taken: seq<Op>)
    | FinBack(op: Op, res: int, rest: seq<Op>) | FinSignal(op: Op, res: int)
    | Cancelling(b: nat, hand: seq<Op>)

  datatype Bucket = Bucket(t: Tid, b: nat)

  datatype State = State(
    entries: nat,
    ops: map<Op, Record>, tasks: seq<Op>,
    rings: map<Tid, Ring>, pcs: map<Tid, Pc>, buckets: map<Bucket, seq<Op>>,
    requested: set<Token>, corrupt: bool)

  function PcOf(s: State, t: Tid): Pc {
    if t in s.pcs then s.pcs[t] else Idle
  }

  function RingOf(s: State, t: Tid): Ring {
    if t in s.rings then s.rings[t] else Ring([], [], [], 0, 0)
  }

  function BucketOf(s: State, t: Tid, b: nat): seq<Op> {
    if Bucket(t, b) in s.buckets then s.buckets[Bucket(t, b)] else []
  }

  /** io_uring_exec_internal.h, `operator[]`: an operation's bucket is its address modulo the bucket count. */
  function Home(op: Op): nat {
    op % BUCKETS
  }

  /** An operation nobody has connected yet. */
  const BLANK := Record(0, false, false, Fresh, Absent, 0, NotMade, false, 0, [], 0)

  function Rec(s: State, op: Op): Record {
    if op in s.ops then s.ops[op] else BLANK
  }

  function Goto(s: State, t: Tid, pc: Pc): State {
    s.(pcs := s.pcs[t := pc])
  }

  function Put(s: State, t: Tid, b: nat, q: seq<Op>): State {
    s.(buckets := s.buckets[Bucket(t, b) := q])
  }

  function Set(s: State, op: Op, r: Record): State {
    s.(ops := s.ops[op := r])
  }

  function SetRing(s: State, t: Tid, r: Ring): State {
    s.(rings := s.rings[t := r])
  }

  /** The vtable's `complete`: a timer that ran out has succeeded. */
  function Outcome(timer: bool, res: int): Signal {
    if timer && (res == -ETIME || res == -ETIMEDOUT) then SetValue(res)
    else if res >= 0 then SetValue(res)
    else if res == -ECANCELED then SetStopped
    else SetError(-res)
  }

  function Complete(r: Record, sig: Signal): Record {
    r.(phase := Done, signals := r.signals + [sig])
  }

  /** `io_uring_get_sqe`, `set_data` and `add_inflight`. */
  function Acquire(r: Ring, e: Entry): Ring {
    r.(sq := r.sq + [e], inflight := r.inflight + 1)
  }

  // ---------------------------------------------------------------- steps

  datatype Act =
    // the user: an operation state comes to life (its address may have been used before) and is started
    | Connect(op: Op, token: Token, stoppable: bool, timer: bool) | BeginStart(op: Op)
    // a runner launches a restart task; then `start` goes on step by step
    | LaunchRestart(i: nat) | CheckStop | GetSqe | Spawn(ok: bool) | Install | FireInline
    // any thread: request a stop; the callbacks it then runs
    | RequestStop(token: Token) | Invoke(op: Op) | RemotePush(op: Op) | RemoteReturn(op: Op)
    // submission, kernel, and the reap loop with `complete`
    | Submit(n: nat) | KernelDone(i: nat) | Reap(res: int) | Advance
    | Reset | TakeBucket | PutFront | PutBack | Deliver
    // the cancel pass
    | CancelTake(b: nat) | CancelSend | CancelPutBack | CancelEnd

  /** The steps, by where they belong. */
  predicate ByUser(act: Act) { act.Connect? || act.BeginStart? || act.LaunchRestart? }
  predicate ByStopper(act: Act) { act.RequestStop? || act.Invoke? || act.RemotePush? || act.RemoteReturn? }
  predicate Beginning(act: Act) { act.CheckStop? || act.GetSqe? }
  predicate Installing(act: Act) { act.Install? || act.FireInline? }
  predicate OnRing(act: Act) { act.Submit? || act.KernelDone? || act.Advance? }
  predicate Taking(act: Act) { act.Reset? || act.TakeBucket? }
  predicate Returning(act: Act) { act.PutBack? || act.Deliver? }
  predicate InStart(act: Act) { Beginning(act) || act.Spawn? || Installing(act) }
  predicate InComplete(act: Act) { act.Reap? || Taking(act) || act.PutFront? || Returning(act) }
  predicate InCancelPass(act: Act) { act.CancelTake? || act.CancelSend? || act.CancelPutBack? || act.CancelEnd? }

  predicate Enabled(s: State, t: Tid, act: Act) {
    var pc := PcOf(s, t);
    match act
    case Connect(op, _, _, _) => Rec(s, op).phase.Fresh? || Rec(s, op).phase.Done?
    case BeginStart(op) => pc.Idle? && Rec(s, op).phase.Fresh?
    case LaunchRestart(i) => pc.Idle? && i < |s.tasks|
    case CheckStop => pc.StartCheck?
    case GetSqe => pc.StartSqe?
    case Spawn(_) => pc.StartSpawn?
    case Install => pc.StartInstall?
    case FireInline => pc.StartFire?
    case RequestStop(_) => true
    case Invoke(op) => Rec(s, op).callback.Registered? && Rec(s, op).token in s.requested
    case RemotePush(op) => Rec(s, op).callback.Invoked?
    case RemoteReturn(op) => Rec(s, op).callback.Pushed?
    case Submit(n) => pc.Idle? && n <= |RingOf(s, t).sq|
    case KernelDone(i) => i < |RingOf(s, t).kernel|
    case Reap(_) => pc.Idle? && RingOf(s, t).cq != []
    case Advance => pc.Idle?
    // `stop_callback.reset()` waits for a callback that is running on another thread
    case Reset => pc.FinReset? && !Rec(s, pc.op).callback.Invoked? && !Rec(s, pc.op).callback.Pushed?
    case TakeBucket => pc.FinTake?
    case PutFront => pc.FinFront?
    case PutBack => pc.FinBack?
    case Deliver => pc.FinSignal?
    case CancelTake(b) => pc.Idle? && b < BUCKETS
    case CancelSend => pc.Cancelling? && pc.hand != [] && |RingOf(s, t).sq| < s.entries
    case CancelPutBack => pc.Cancelling? && pc.hand != [] && |RingOf(s, t).sq| >= s.entries
    case CancelEnd => pc.Cancelling? && pc.hand == []
  }

  /** `start`: a stop that was requested already completes the operation at once. */
  function CheckStopStep(s: State, t: Tid, op: Op): State {
    var r := Rec(s, op);
    if r.stoppable && r.token in s.requested then Goto(Set(s, op, Complete(r, SetStopped)), t, Idle)
    else Goto(s, t, StartSqe(op))
  }

  /** `start`: with the SQ full, the operation will be restarted as a task. */
  function GetSqeStep(s: State, t: Tid, op: Op): State {
    var ring := RingOf(s, t);
    if |ring.sq| < s.entries then Goto(SetRing(s, t, Acquire(ring, Perform(op))), t, StartInstall(op))
    else Goto(s, t, StartSpawn(op))
  }

  /** `async_restart`: spawning the restart task may throw. */
  function SpawnStep(s: State, t: Tid, op: Op, ok: bool): State {
    var r := Rec(s, op);
    if ok then Goto(Set(s, op, r.(phase := Queued)), t, Idle).(tasks := s.tasks + [op])
    else Goto(Set(s, op, Complete(r, SetSpawnError)), t, Idle)
  }

  /** `install_stoppable_callback`: `emplace` runs the callback itself when the stop has been requested meanwhile. */
  function InstallStep(s: State, t: Tid, op: Op): State {
    var r := Rec(s, op);
    if !r.stoppable then Goto(Set(s, op, r.(phase := InFlight(t))), t, Idle)
    else if r.token in s.requested then Goto(Set(s, op, r.(local := t, callback := Inline)), t, StartFire(op))
    else Goto(Set(s, op, r.(local := t, callback := Registered, phase := InFlight(t))), t, Idle)
  }

  /** `cancellation`: push the operation into its stopping bucket. */
  function PushStop(s: State, op: Op, r: Record): State {
    Put(Set(s, op, r.(request := Pending, linked := true)), r.local, Home(op), [op] + BucketOf(s, r.local, Home(op)))
  }

  /** The reap loop consumes the oldest CQE; the kernel chose its result. */
  function ReapStep(s: State, t: Tid, res: int): State
    requires RingOf(s, t).cq != []
  {
    var ring := RingOf(s, t);
    var s1 := SetRing(s, t, ring.(cq := ring.cq[1..], reaped := ring.reaped + 1));
    match ring.cq[0]
    case Perform(op) => Goto(Set(s1, op, Rec(s, op).(phase := Running(t), result := res)), t, FinReset(op, res))
    case Cancel(_) => s1
  }

  /** `uninstall_stoppable_callback`, step by step; an unstoppable operation has nothing to uninstall. */
  function ResetStep(s: State, t: Tid, op: Op, res: int): State {
    if Rec(s, op).stoppable then Goto(Set(s, op, Rec(s, op).(callback := Absent)), t, FinTake(op, res))
    else Goto(s, t, FinSignal(op, res))
  }

  function TakeBucketStep(s: State, t: Tid, op: Op, res: int): State {
    var taken := BucketOf(s, t, Home(op));
    if taken == [] then Goto(s, t, FinSignal(op, res))
    else Goto(Put(s, t, Home(op), []), t, FinFront(op, res, taken))
  }

  /** The second `push_all` will follow the operation's own link: were it absent but linked, the queue would be lost. */
  function PutFrontStep(s: State, t: Tid, op: Op, res: int, taken: seq<Op>): State {
    var s1 := Put(s, t, Home(op), Before(taken, op) + BucketOf(s, t, Home(op)));
    if op in taken then Goto(Set(s1, op, Rec(s, op).(request := Withdrawn)), t, FinBack(op, res, After(taken, op)))
    else Goto(s1, t, FinBack(op, res, [])).(corrupt := s.corrupt || Rec(s, op).linked)
  }

  function PutBackStep(s: State, t: Tid, op: Op, res: int, rest: seq<Op>): State {
    Goto(Put(s, t, Home(op), rest + BucketOf(s, t, Home(op))), t, FinSignal(op, res))
  }

  function DeliverStep(s: State, t: Tid, op: Op, res: int): State {
    Goto(Set(s, op, Complete(Rec(s, op), Outcome(Rec(s, op).timer, res))), t, Idle)
  }

  function CancelSendStep(s: State, t: Tid, b: nat, hand: seq<Op>): State
    requires hand != []
  {
    var x, r := hand[0], Rec(s, hand[0]);
    Goto(SetRing(Set(s, x, r.(request := Sent, linked := false, cancels := r.cancels + 1)), t,
                 Acquire(RingOf(s, t), Cancel(x))), t, Cancelling(b, hand[1..]))
  }

  function Stepped(s: State, t: Tid, act: Act): State
    requires Enabled(s, t, act)
  {
    var pc, ring := PcOf(s, t), RingOf(s, t);
    match act
    case Connect(op, token, stoppable, timer) => Set(s, op, BLANK.(token := token, stoppable := stoppable, timer := timer))
    case BeginStart(op) => Goto(Set(s, op, Rec(s, op).(phase := Running(t))), t, StartCheck(op))
    case LaunchRestart(i) =>
      var op := s.tasks[i];
      Goto(Set(s, op, Rec(s, op).(phase := Running(t))), t, StartCheck(op)).(tasks := RemoveAt(s.tasks, i))
    case CheckStop => CheckStopStep(s, t, pc.op)
    case GetSqe => GetSqeStep(s, t, pc.op)
    case Spawn(ok) => SpawnStep(s, t, pc.op, ok)
    case Install => InstallStep(s, t, pc.op)
    case FireInline => Goto(PushStop(s, pc.op, Rec(s, pc.op).(callback := Returned, phase := InFlight(t))), t, Idle)
    case RequestStop(token) => s.(requested := s.requested + {token})
    case Invoke(op) => Set(s, op, Rec(s, op).(callback := Invoked))
    case RemotePush(op) => PushStop(s, op, Rec(s, op).(callback := Pushed))
    case RemoteReturn(op) => Set(s, op, Rec(s, op).(callback := Returned))
    case Submit(n) => SetRing(s, t, ring.(sq := ring.sq[n..], kernel := ring.kernel + ring.sq[..n]))
    case KernelDone(i) => SetRing(s, t, ring.(kernel := RemoveAt(ring.kernel, i), cq := ring.cq + [ring.kernel[i]]))
    case Reap(res) => ReapStep(s, t, res)
    case Advance => SetRing(s, t, ring.(inflight := ring.inflight - ring.reaped, reaped := 0))
    case Reset => ResetStep(s, t, pc.op, pc.res)
    case TakeBucket => TakeBucketStep(s, t, pc.op, pc.res)
    case PutFront => PutFrontStep(s, t, pc.op, pc.res, pc.taken)
    case PutBack => PutBackStep(s, t, pc.op, pc.res, pc.rest)
    case Deliver => DeliverStep(s, t, pc.op, pc.res)
    case CancelTake(b) => Goto(Put(s, t, b, []), t, Cancelling(b, BucketOf(s, t, b)))
    case CancelSend => CancelSendStep(s, t, pc.b, pc.hand)
    case CancelPutBack => Goto(Put(s, t, pc.b, pc.hand + BucketOf(s, t, pc.b)), t, Idle)
    case CancelEnd => Goto(s, t, Idle)
  }

  // ---------------------------------------------------------------- invariant

  /** The thread is inside `start` or `complete` for this operation. */
  predicate On(pc: Pc, op: Op) {
    !pc.Idle? && !pc.Cancelling? && pc.op == op
  }

  /** The nodes a thread has taken out of a stopping bucket and not yet dealt with. */
  function Hand(pc: Pc): seq<Op> {
    match pc
    case FinFront(_, _, taken) => taken
    case FinBack(_, _, rest) => rest
    case Cancelling(_, hand) => hand
    case _ => []
  }

  function Outstanding(r: Ring, e: Entry): nat {
    Count(r.sq, e) + Count(r.kernel, e) + Count(r.cq, e)
  }

  /** `start` has acquired the SQE but not returned. */
  predicate HasSqe(pc: Pc) {
    pc.StartInstall? || pc.StartFire?
  }

  /** What callback, request and link may be while the callback is installed. */
  predicate Installed(r: Record, t: Tid) {
    if !r.stoppable then Untouched(r)
    else
      && r.local == t
      && (|| ((r.callback.Registered? || r.callback.Invoked?) && r.request.NotMade? && !r.linked)
          || ((r.callback.Pushed? || r.callback.Returned?) && (r.request.Pending? || (r.request.Sent? && !r.linked))))
  }

  predicate Untouched(r: Record) {
    r.callback.Absent? && r.request.NotMade? && !r.linked
  }

  /** What an operation's record may look like, given its phase and where its thread stands. */
  predicate Coherent(r: Record, pc: Pc) {
    match r.phase
    case Fresh => Untouched(r)
    case Queued => Untouched(r)
    case InFlight(t) => Installed(r, t)
    case Done => r.callback.Absent? && !r.request.Pending?
    case Running(t) =>
      match pc
      case StartFire(_) => r.stoppable && r.callback.Inline? && r.request.NotMade? && !r.linked && r.local == t
      case FinReset(_, res) => Installed(r, t) && r.result == res
      case FinTake(_, res) => Uninstalling(r, t) && r.result == res
      case FinFront(op, res, taken) => Uninstalling(r, t) && (r.request.Pending? <==> op in taken) && r.result == res
      case FinBack(_, res, _) => r.callback.Absent? && !r.request.Pending? && r.result == res
      case FinSignal(_, res) => r.callback.Absent? && !r.request.Pending? && r.result == res
      case _ => Untouched(r)
  }

  /** The callback is gone, the bucket not yet searched: a link that may be non-null means that the node is queued. */
  predicate Uninstalling(r: Record, t: Tid) {
    r.stoppable && r.callback.Absent? && r.local == t && !r.request.Withdrawn? && (r.linked ==> r.request.Pending?)
  }

  function ThreadPc(s: State, p: Phase): Pc {
    if p.Running? then PcOf(s, p.t) else Idle
  }

  ghost predicate Placed(s: State) {
    && (forall t, op {:trigger On(PcOf(s, t), op)} :: On(PcOf(s, t), op) ==> Rec(s, op).phase == Running(t))
    && (forall op {:trigger Rec(s, op)} :: Rec(s, op).phase.Running? ==> On(PcOf(s, Rec(s, op).phase.t), op))
  }

  ghost predicate TasksOk(s: State) {
    forall op {:trigger Count(s.tasks, op)} :: Count(s.tasks, op) == One(Rec(s, op).phase.Queued?)
  }

  /** The SQE or CQE of the operation is in this thread's ring. */
  predicate InRing(s: State, t: Tid, op: Op) {
    Rec(s, op).phase == InFlight(t) || (Rec(s, op).phase == Running(t) && HasSqe(PcOf(s, t)))
  }

  /** How many SQEs and CQEs of the operation are in this thread's ring. */
  function Entries(s: State, t: Tid, op: Op): nat {
    Outstanding(RingOf(s, t), Perform(op))
  }

  ghost predicate RingsOk(s: State) {
    forall t, op {:trigger Entries(s, t, op)} :: Entries(s, t, op) == One(InRing(s, t, op))
  }

  ghost predicate RecordsOk(s: State) {
    forall op {:trigger Rec(s, op)} :: Coherent(Rec(s, op), ThreadPc(s, Rec(s, op).phase))
  }

  /** A signal reports the result of the operation's own CQE, a failed spawn, or a stop that was asked for. */
  predicate Earned(requested: set<Token>, r: Record, sig: Signal) {
    || sig == Outcome(r.timer, r.result)
    || sig.SetSpawnError?
    || (sig.SetStopped? && r.stoppable && r.token in requested)
  }

  /** Signals and cancels are not repeated, and have a reason. */
  predicate Tallied(requested: set<Token>, r: Record) {
    && |r.signals| == (if r.phase.Done? then 1 else 0)
    && r.cancels == (if r.request.Sent? then 1 else 0)
    && (!r.request.NotMade? || r.callback.Invoked? || r.callback.Inline? ==> r.stoppable && r.token in requested)
    && (r.signals != [] ==> Earned(requested, r, r.signals[0]))
  }

  ghost predicate TalliesOk(s: State) {
    forall op {:trigger Rec(s, op)} :: Tallied(s.requested, Rec(s, op))
  }

  /** How often `op` is linked in thread t's stopping buckets, or in a list t has just taken from one. */
  function Links(s: State, t: Tid, op: Op): nat {
    Count(BucketOf(s, t, Home(op)), op) + Count(Hand(PcOf(s, t)), op)
  }

  predicate StopPending(r: Record, t: Tid) {
    r.local == t && r.request.Pending?
  }

  ghost predicate LinksOk(s: State) {
    forall t, op {:trigger Links(s, t, op)} :: Links(s, t, op) == One(StopPending(Rec(s, op), t))
  }

  /** Operations sit in their own bucket, also while taken out of it. */
  ghost predicate HomesOk(s: State) {
    && (forall t, b {:trigger BucketOf(s, t, b)} :: AtHome(BucketOf(s, t, b), b))
    && (forall t {:trigger PcOf(s, t)} :: PcHome(PcOf(s, t)))
  }

  ghost predicate AtHome(q: seq<Op>, b: nat) {
    forall x :: x in q ==> Home(x) == b
  }

  ghost predicate PcHome(pc: Pc) {
    match pc
    case FinFront(op, _, taken) => AtHome(taken, Home(op))
    case FinBack(op, _, rest) => AtHome(rest, Home(op))
    case Cancelling(b, hand) => AtHome(hand, b)
    case _ => true
  }

  predicate Accounted(entries: nat, r: Ring) {
    && |r.sq| <= entries
    && r.inflight == |r.sq| + |r.kernel| + |r.cq| + r.reaped
  }

  ghost predicate InflightOk(s: State) {
    forall t {:trigger RingOf(s, t)} :: Accounted(s.entries, RingOf(s, t))
  }

  ghost predicate Inv(s: State) {
    && Placed(s) && TasksOk(s) && RingsOk(s) && RecordsOk(s) && TalliesOk(s)
    && LinksOk(s) && HomesOk(s) && InflightOk(s) && !s.corrupt
  }
}
