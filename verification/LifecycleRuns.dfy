/** Every step of an operation's life keeps the invariant, so every state of every run has it. */
module LifecycleRuns {
  import opened Lists
  import opened Lifecycle
  import opened LifecycleInvariant
  import opened LifecycleCounts

  // ---------------------------------------------------------------- the invariant is inductive

  lemma HomesStay(s: State, s': State, t: Tid)
    requires HomesOk(s) && s'.buckets == s.buckets
    requires forall u {:trigger PcOf(s', u)} :: u != t ==> PcOf(s', u) == PcOf(s, u)
    requires PcHome(PcOf(s', t))
    ensures HomesOk(s')
  {
    forall u, b ensures AtHome(BucketOf(s', u, b), b) {
      assert AtHome(BucketOf(s, u, b), b) && BucketOf(s', u, b) == BucketOf(s, u, b);
    }
    forall u ensures PcHome(PcOf(s', u)) {
      assert PcHome(PcOf(s, u));
    }
  }

  /** One bucket and one thread's hand changed, and both hold only operations at home there. */
  lemma HomesPut(s: State, s': State, w: Tid, b: nat, t: Tid)
    requires HomesOk(s) && AtHome(BucketOf(s', w, b), b) && PcHome(PcOf(s', t))
    requires forall u, c {:trigger BucketOf(s', u, c)} :: u != w || c != b ==> BucketOf(s', u, c) == BucketOf(s, u, c)
    requires forall u {:trigger PcOf(s', u)} :: u != t ==> PcOf(s', u) == PcOf(s, u)
    ensures HomesOk(s')
  {
    forall u, c ensures AtHome(BucketOf(s', u, c), c) {
      assert AtHome(BucketOf(s, u, c), c);
    }
    forall u ensures PcHome(PcOf(s', u)) {
      assert PcHome(PcOf(s, u));
    }
  }

  lemma HomesPush(s: State, t: Tid, act: Act)
    requires HomesOk(s) && Enabled(s, t, act) && Known(s, t, act) && (act.FireInline? || act.RemotePush?)
    requires OnlyAt(s, Stepped(s, t, act), t, Subject(s, t, act))
    ensures HomesOk(Stepped(s, t, act))
  {
    var b := Home(Subject(s, t, act));
    var w := Rec(s, Subject(s, t, act)).local;
    assert AtHome(BucketOf(s, w, b), b) && PcHome(PcOf(s, t));
    HomesPut(s, Stepped(s, t, act), w, b, t);
  }

  lemma HomesTake(s: State, t: Tid, act: Act)
    requires HomesOk(s) && Enabled(s, t, act) && Known(s, t, act) && act.TakeBucket?
    requires OnlyAt(s, Stepped(s, t, act), t, Subject(s, t, act))
    ensures HomesOk(Stepped(s, t, act))
  {
    var b := Home(Subject(s, t, act));
    var w := t;
    assert AtHome(BucketOf(s, w, b), b) && PcHome(PcOf(s, t));
    HomesPut(s, Stepped(s, t, act), w, b, t);
  }

  lemma HomesFront(s: State, t: Tid, act: Act)
    requires HomesOk(s) && Enabled(s, t, act) && Known(s, t, act) && act.PutFront?
    requires OnlyAt(s, Stepped(s, t, act), t, Subject(s, t, act))
    ensures HomesOk(Stepped(s, t, act))
  {
    var b := Home(Subject(s, t, act));
    var w := t;
    assert AtHome(BucketOf(s, w, b), b) && PcHome(PcOf(s, t));
    HomesPut(s, Stepped(s, t, act), w, b, t);
  }

  lemma HomesBack(s: State, t: Tid, act: Act)
    requires HomesOk(s) && Enabled(s, t, act) && Known(s, t, act) && act.PutBack?
    requires OnlyAt(s, Stepped(s, t, act), t, Subject(s, t, act))
    ensures HomesOk(Stepped(s, t, act))
  {
    var b := Home(Subject(s, t, act));
    var w := t;
    assert AtHome(BucketOf(s, w, b), b) && PcHome(PcOf(s, t));
    HomesPut(s, Stepped(s, t, act), w, b, t);
  }

  lemma HomesCancel(s: State, t: Tid, act: Act)
    requires HomesOk(s) && Enabled(s, t, act) && Known(s, t, act) && (act.CancelTake? || act.CancelPutBack?)
    requires OnlyAt(s, Stepped(s, t, act), t, Subject(s, t, act))
    ensures HomesOk(Stepped(s, t, act))
  {
    var b := if act.CancelTake? then act.b else PcOf(s, t).b;
    var w := t;
    assert AtHome(BucketOf(s, w, b), b) && PcHome(PcOf(s, t));
    HomesPut(s, Stepped(s, t, act), w, b, t);
  }

  /** The parts put together. */
  lemma Assemble(s: State, s': State, t: Tid, act: Act)
    requires Inv(s) && Enabled(s, t, act) && OnlyAt(s, s', t, Subject(s, t, act)) && GoodMove(s, s', t, Subject(s, t, act))
    requires Effects(s, s', t, act) && GoodTasks(s, s', Subject(s, t, act)) && LinksOk(s') && HomesOk(s')
    ensures Inv(s')
  {
    var x := Subject(s, t, act);
    GoodMoveKeeps(s, s', t, x);
    GoodTasksKeep(s, s', t, x);
    RingsMove(s, s', t, act);
    GoodRingsKeep(s, s', t, x);
  }

  /** A step that is local, moves one operation well, and whose tasks, ring, links and buckets are in order. */
  lemma Kept(s: State, t: Tid, act: Act)
    requires Inv(s) && Enabled(s, t, act)
    requires
      var s', x := Stepped(s, t, act), Subject(s, t, act);
      OnlyAt(s, s', t, x) && GoodMove(s, s', t, x) && Effects(s, s', t, act) && GoodLinks(s, s', x) && HomesOk(s')
    ensures Inv(Stepped(s, t, act))
  {
    InvLocates(s, t, act);
    GoodLinksKeep(s, Stepped(s, t, act), t, Subject(s, t, act));
    TasksMove(s, t, act);
    Assemble(s, Stepped(s, t, act), t, act);
  }

  /** The same for a step that links and unlinks nothing. */
  lemma KeptLinks(s: State, t: Tid, act: Act)
    requires Inv(s) && Enabled(s, t, act)
    requires
      var s', x := Stepped(s, t, act), Subject(s, t, act);
      && OnlyAt(s, s', t, x) && GoodMove(s, s', t, x) && Effects(s, s', t, act)
      && SameLinks(s, s', x) && PcHome(PcOf(s', t))
    ensures Inv(Stepped(s, t, act))
  {
    SameLinksGood(s, Stepped(s, t, act), Subject(s, t, act));
    HomesStay(s, Stepped(s, t, act), t);
    Kept(s, t, act);
  }

  lemma KeepsUser(s: State, t: Tid, act: Act)
    requires Inv(s) && Enabled(s, t, act) && ByUser(act)
    ensures Inv(Stepped(s, t, act))
  {
    InvKnows(s, t, act);
    LocalUser(s, t, act);
    if act.BeginStart? || act.LaunchRestart? { MovesBegin(s, t, act); }
    EffectsUser(s, t, act);
    KeptLinks(s, t, act);
  }

  lemma KeepsStopper(s: State, t: Tid, act: Act)
    requires Inv(s) && Enabled(s, t, act) && ByStopper(act) && !act.RemotePush?
    ensures Inv(Stepped(s, t, act))
  {
    InvKnows(s, t, act);
    LocalStopper(s, t, act);
    if act.RequestStop? { MovesRequest(s, t, act); } else { MovesCallback(s, t, act); }
    KeptLinks(s, t, act);
  }

  lemma KeepsRemotePush(s: State, t: Tid, act: Act)
    requires Inv(s) && Enabled(s, t, act) && act.RemotePush?
    ensures Inv(Stepped(s, t, act))
  {
    InvKnows(s, t, act);
    LocalStopper(s, t, act);
    MovesCallback(s, t, act);
    LinksPush(s, t, act);
    HomesPush(s, t, act);
    Kept(s, t, act);
  }

  lemma KeepsBeginning(s: State, t: Tid, act: Act)
    requires Inv(s) && Enabled(s, t, act) && Beginning(act)
    ensures Inv(Stepped(s, t, act))
  {
    InvKnows(s, t, act);
    LocalBeginning(s, t, act);
    MovesBeginning(s, t, act);
    LinksStayBeginning(s, t, act);
    KeptLinks(s, t, act);
  }

  lemma KeepsSpawn(s: State, t: Tid, act: Act)
    requires Inv(s) && Enabled(s, t, act) && act.Spawn?
    ensures Inv(Stepped(s, t, act))
  {
    InvKnows(s, t, act);
    EffectsSpawn(s, t, act);
    KeptLinks(s, t, act);
  }

  lemma KeepsInstall(s: State, t: Tid, act: Act)
    requires Inv(s) && Enabled(s, t, act) && act.Install?
    ensures Inv(Stepped(s, t, act))
  {
    InvKnows(s, t, act);
    LocalInstall(s, t, act);
    MovesInstall(s, t, act);
    KeptLinks(s, t, act);
  }

  lemma KeepsFireInline(s: State, t: Tid, act: Act)
    requires Inv(s) && Enabled(s, t, act) && act.FireInline?
    ensures Inv(Stepped(s, t, act))
  {
    InvKnows(s, t, act);
    LinksPush(s, t, act);
    HomesPush(s, t, act);
    Kept(s, t, act);
  }

  lemma KeepsRing(s: State, t: Tid, act: Act)
    requires Inv(s) && Enabled(s, t, act) && OnRing(act)
    ensures Inv(Stepped(s, t, act))
  {
    InvKnows(s, t, act);
    LocalRing(s, t, act);
    MovesRing(s, t, act);
    LinksStayRing(s, t, act);
    KeptLinks(s, t, act);
  }

  lemma KeepsReap(s: State, t: Tid, act: Act)
    requires Inv(s) && Enabled(s, t, act) && act.Reap?
    ensures Inv(Stepped(s, t, act))
  {
    InvKnows(s, t, act);
    LocalReap(s, t, act);
    MovesReap(s, t, act);
    KeptLinks(s, t, act);
  }

  lemma KeepsReset(s: State, t: Tid, act: Act)
    requires Inv(s) && Enabled(s, t, act) && act.Reset?
    ensures Inv(Stepped(s, t, act))
  {
    InvKnows(s, t, act);
    LocalTaking(s, t, act);
    MovesReset(s, t, act);
    KeptLinks(s, t, act);
  }

  lemma KeepsTakeBucket(s: State, t: Tid, act: Act)
    requires Inv(s) && Enabled(s, t, act) && act.TakeBucket?
    ensures Inv(Stepped(s, t, act))
  {
    InvKnows(s, t, act);
    LocalTaking(s, t, act);
    LinksTake(s, t, act);
    HomesTake(s, t, act);
    Kept(s, t, act);
  }

  lemma KeepsPutFront(s: State, t: Tid, act: Act)
    requires Inv(s) && Enabled(s, t, act) && act.PutFront?
    ensures Inv(Stepped(s, t, act))
  {
    InvKnows(s, t, act);
    LocalPutFront(s, t, act);
    MovesPutFront(s, t, act);
    LinksFront(s, t, act);
    HomesFront(s, t, act);
    Kept(s, t, act);
  }

  lemma KeepsPutBack(s: State, t: Tid, act: Act)
    requires Inv(s) && Enabled(s, t, act) && act.PutBack?
    ensures Inv(Stepped(s, t, act))
  {
    InvKnows(s, t, act);
    LinksBack(s, t, act);
    HomesBack(s, t, act);
    Kept(s, t, act);
  }

  lemma KeepsDeliver(s: State, t: Tid, act: Act)
    requires Inv(s) && Enabled(s, t, act) && act.Deliver?
    ensures Inv(Stepped(s, t, act))
  {
    InvKnows(s, t, act);
    KeptLinks(s, t, act);
  }

  /** The links of every operation are as they were, though some changed between bucket and hand. */
  lemma KeptPass(s: State, t: Tid, act: Act)
    requires Inv(s) && Enabled(s, t, act) && (act.CancelTake? || act.CancelPutBack?)
    requires LinksOk(Stepped(s, t, act))
    ensures Inv(Stepped(s, t, act))
  {
    InvKnows(s, t, act);
    LocalCancelPass(s, t, act);
    EffectsCancelPass(s, t, act);
    HomesCancel(s, t, act);
    TasksMove(s, t, act);
    Assemble(s, Stepped(s, t, act), t, act);
  }

  lemma KeepsCancelTake(s: State, t: Tid, act: Act)
    requires Inv(s) && Enabled(s, t, act) && act.CancelTake?
    ensures Inv(Stepped(s, t, act))
  {
    LinksCancelTake(s, t, act);
    KeptPass(s, t, act);
  }

  lemma KeepsCancelPutBack(s: State, t: Tid, act: Act)
    requires Inv(s) && Enabled(s, t, act) && act.CancelPutBack?
    ensures Inv(Stepped(s, t, act))
  {
    LinksCancelPutBack(s, t, act);
    KeptPass(s, t, act);
  }

  lemma KeepsCancelSend(s: State, t: Tid, act: Act)
    requires Inv(s) && Enabled(s, t, act) && act.CancelSend?
    ensures Inv(Stepped(s, t, act))
  {
    InvKnows(s, t, act);
    LocalCancelPass(s, t, act);
    EffectsCancelSend(s, t, act);
    LinksSend(s, t, act);
    assert PcHome(PcOf(s, t));
    HomesStay(s, Stepped(s, t, act), t);
    Kept(s, t, act);
  }

  lemma KeepsCancelEnd(s: State, t: Tid, act: Act)
    requires Inv(s) && Enabled(s, t, act) && act.CancelEnd?
    ensures Inv(Stepped(s, t, act))
  {
    InvKnows(s, t, act);
    LocalCancelPass(s, t, act);
    EffectsCancelPass(s, t, act);
    KeptLinks(s, t, act);
  }

  lemma StartKeeps(s: State, t: Tid, act: Act)
    requires Inv(s) && Enabled(s, t, act) && InStart(act)
    ensures Inv(Stepped(s, t, act))
  {
    if Beginning(act) { KeepsBeginning(s, t, act); }
    else if act.Spawn? { KeepsSpawn(s, t, act); }
    else if act.Install? { KeepsInstall(s, t, act); }
    else { KeepsFireInline(s, t, act); }
  }

  lemma CompleteKeeps(s: State, t: Tid, act: Act)
    requires Inv(s) && Enabled(s, t, act) && InComplete(act)
    ensures Inv(Stepped(s, t, act))
  {
    if act.Reap? { KeepsReap(s, t, act); }
    else if act.Reset? { KeepsReset(s, t, act); }
    else if act.TakeBucket? { KeepsTakeBucket(s, t, act); }
    else if act.PutFront? { KeepsPutFront(s, t, act); }
    else if act.PutBack? { KeepsPutBack(s, t, act); }
    else { KeepsDeliver(s, t, act); }
  }

  lemma CancelPassKeeps(s: State, t: Tid, act: Act)
    requires Inv(s) && Enabled(s, t, act) && InCancelPass(act)
    ensures Inv(Stepped(s, t, act))
  {
    if act.CancelTake? { KeepsCancelTake(s, t, act); }
    else if act.CancelSend? { KeepsCancelSend(s, t, act); }
    else if act.CancelPutBack? { KeepsCancelPutBack(s, t, act); }
    else { KeepsCancelEnd(s, t, act); }
  }

  lemma EveryStepKeeps(s: State, t: Tid, act: Act)
    requires Inv(s) && Enabled(s, t, act)
    ensures Inv(Stepped(s, t, act))
  {
    if ByUser(act) { KeepsUser(s, t, act); }
    else if act.RemotePush? { KeepsRemotePush(s, t, act); }
    else if ByStopper(act) { KeepsStopper(s, t, act); }
    else if InStart(act) { StartKeeps(s, t, act); }
    else if InComplete(act) { CompleteKeeps(s, t, act); }
    else if OnRing(act) { KeepsRing(s, t, act); }
    else { CancelPassKeeps(s, t, act); }
  }

  // ---------------------------------------------------------------- runs

  function Initial(entries: nat): State {
    State(entries, map[], [], map[], map[], map[], {}, false)
  }

  /** A run: any threads, any order, any number of steps. */
  ghost predicate Run(ss: seq<State>, acts: seq<(Tid, Act)>) {
    && |ss| == |acts| + 1 && ss[0] == Initial(ss[0].entries)
    && forall i {:trigger acts[i]} :: 0 <= i < |acts| ==>
         Enabled(ss[i], acts[i].0, acts[i].1) && ss[i + 1] == Stepped(ss[i], acts[i].0, acts[i].1)
  }

  lemma InitialInv(entries: nat)
    ensures Inv(Initial(entries))
  {
    var s := Initial(entries);
    forall t, op ensures Entries(s, t, op) == 0 && Links(s, t, op) == 0 && !On(PcOf(s, t), op) {}
    forall t ensures PcHome(PcOf(s, t)) && Accounted(entries, RingOf(s, t)) {}
    forall op ensures Tallied(s.requested, Rec(s, op)) && Coherent(Rec(s, op), Idle) {}
  }

  lemma {:induction false} EveryStateInv(ss: seq<State>, acts: seq<(Tid, Act)>, i: nat)
    requires Run(ss, acts) && i < |ss|
    ensures Inv(ss[i])
  {
    if i == 0 {
      InitialInv(ss[0].entries);
    } else {
      EveryStateInv(ss, acts, i - 1);
      var step := acts[i - 1];
      EveryStepKeeps(ss[i - 1], step.0, step.1);
    }
  }
}
