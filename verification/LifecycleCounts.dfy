/** Every step keeps the counts: one restart task, one SQE or CQE, one link per operation, and the in-flight sum. */
module LifecycleCounts {
  import opened Lists
  import opened Lifecycle
  import opened LifecycleInvariant

  // ---------------------------------------------------------------- restart tasks

  ghost predicate GoodTasks(s: State, s': State, x: Op) {
    && (forall y {:trigger Count(s'.tasks, y)} :: y != x ==> Count(s'.tasks, y) == Count(s.tasks, y))
    && Count(s'.tasks, x) == One(Rec(s', x).phase.Queued?)
  }

  lemma GoodTasksKeep(s: State, s': State, t: Tid, x: Op)
    requires TasksOk(s) && OnlyAt(s, s', t, x) && GoodTasks(s, s', x)
    ensures TasksOk(s')
  {
    forall y ensures Count(s'.tasks, y) == One(Rec(s', y).phase.Queued?) {
      assert Count(s.tasks, y) == One(Rec(s, y).phase.Queued?);
    }
  }

  ghost predicate SameTasks(s: State, s': State, x: Op) {
    s'.tasks == s.tasks && (Rec(s', x).phase.Queued? <==> Rec(s, x).phase.Queued?)
  }

  lemma TasksMove(s: State, t: Tid, act: Act)
    requires TasksOk(s) && Enabled(s, t, act) && Located(s, t, act)
    requires act.LaunchRestart? || act == Spawn(true) || SameTasks(s, Stepped(s, t, act), Subject(s, t, act))
    ensures GoodTasks(s, Stepped(s, t, act), Subject(s, t, act))
  {
    var s', x := Stepped(s, t, act), Subject(s, t, act);
    assert Count(s.tasks, x) == One(Rec(s, x).phase.Queued?);
    if act.LaunchRestart? {
      forall y ensures Count(s'.tasks, y) + One(x == y) == Count(s.tasks, y) {
        CountRemoveAt(s.tasks, act.i, y);
      }
    } else if act == Spawn(true) {
      forall y ensures Count(s'.tasks, y) == Count(s.tasks, y) + One(x == y) {
        CountConcat(s.tasks, [x], y);
      }
    }
  }

  // ---------------------------------------------------------------- rings

  /** Thread t's ring changed at most for operation x, and there to what x's new phase asks for. */
  ghost predicate GoodRings(s: State, s': State, t: Tid, x: Op) {
    && (forall u {:trigger RingOf(s', u)} :: u != t ==> RingOf(s', u) == RingOf(s, u))
    && (forall y {:trigger Entries(s', t, y)} :: y != x ==> Entries(s', t, y) == Entries(s, t, y))
    && Entries(s', t, x) == One(InRing(s', t, x))
    && s'.entries == s.entries && Accounted(s'.entries, RingOf(s', t))
  }

  lemma GoodRingsKeep(s: State, s': State, t: Tid, x: Op)
    requires Placed(s) && RingsOk(s) && OnlyAt(s, s', t, x) && GoodMove(s, s', t, x) && GoodRings(s, s', t, x)
    ensures RingsOk(s')
  {
    forall u, y ensures Entries(s', u, y) == One(InRing(s', u, y)) {
      if u != t || y != x {
        assert Entries(s', u, y) == Entries(s, u, y) by {
          assert u != t ==> RingOf(s', u) == RingOf(s, u);
        }
      }
    }
  }

  /** The ring after a step. */
  function RingAfter(s: State, t: Tid, act: Act): Ring
    requires Enabled(s, t, act)
  {
    var r := RingOf(s, t);
    match act
    case GetSqe => if |r.sq| < s.entries then Acquire(r, Perform(PcOf(s, t).op)) else r
    case CancelSend => Acquire(r, Cancel(PcOf(s, t).hand[0]))
    case Submit(n) => r.(sq := r.sq[n..], kernel := r.kernel + r.sq[..n])
    case KernelDone(i) => r.(kernel := RemoveAt(r.kernel, i), cq := r.cq + [r.kernel[i]])
    case Reap(_) => r.(cq := r.cq[1..], reaped := r.reaped + 1)
    case Advance => r.(inflight := r.inflight - r.reaped, reaped := 0)
    case _ => r
  }

  ghost predicate OneRing(s: State, s': State, t: Tid, r: Ring) {
    && s'.entries == s.entries && RingOf(s', t) == r
    && (forall u {:trigger RingOf(s', u)} :: u != t ==> RingOf(s', u) == RingOf(s, u))
  }

  /** Which entry a step adds to or takes from the ring. */
  predicate Gained(s: State, t: Tid, act: Act, e: Entry)
    requires Enabled(s, t, act)
  {
    (act.GetSqe? && |RingOf(s, t).sq| < s.entries && e == Perform(PcOf(s, t).op))
    || (act.CancelSend? && e == Cancel(PcOf(s, t).hand[0]))
  }

  predicate Lost(s: State, t: Tid, act: Act, e: Entry)
    requires Enabled(s, t, act)
  {
    act.Reap? && e == RingOf(s, t).cq[0]
  }

  lemma RingCounts(s: State, t: Tid, act: Act, e: Entry)
    requires Enabled(s, t, act)
    ensures Outstanding(RingAfter(s, t, act), e) + One(Lost(s, t, act, e))
         == Outstanding(RingOf(s, t), e) + One(Gained(s, t, act, e))
  {
    var r := RingOf(s, t);
    if act.GetSqe? {
      CountConcat(r.sq, [Perform(PcOf(s, t).op)], e);
    } else if act.CancelSend? {
      CountConcat(r.sq, [Cancel(PcOf(s, t).hand[0])], e);
    } else if act.Submit? {
      CountSplit(r.sq, act.n, e);
      CountConcat(r.kernel, r.sq[..act.n], e);
    } else if act.KernelDone? {
      CountRemoveAt(r.kernel, act.i, e);
      CountConcat(r.cq, [r.kernel[act.i]], e);
    }
  }

  lemma RingAccounts(s: State, t: Tid, act: Act)
    requires Enabled(s, t, act) && Accounted(s.entries, RingOf(s, t))
    ensures Accounted(s.entries, RingAfter(s, t, act))
  {
  }

  /** Whether x belongs in the ring changes exactly with the entry gained or lost. */
  ghost predicate InRingFollows(s: State, s': State, t: Tid, act: Act, x: Op)
    requires Enabled(s, t, act)
  {
    One(InRing(s', t, x)) + One(Lost(s, t, act, Perform(x))) == One(InRing(s, t, x)) + One(Gained(s, t, act, Perform(x)))
  }

  /** What a step does to tasks and rings. */
  ghost predicate Effects(s: State, s': State, t: Tid, act: Act)
    requires Enabled(s, t, act)
  {
    && (act.LaunchRestart? || act == Spawn(true) || SameTasks(s, s', Subject(s, t, act)))
    && OneRing(s, s', t, RingAfter(s, t, act))
    && InRingFollows(s, s', t, act, Subject(s, t, act))
  }

  lemma EffectsUser(s: State, t: Tid, act: Act)
    requires Enabled(s, t, act) && Located(s, t, act) && ByUser(act)
    ensures Effects(s, Stepped(s, t, act), t, act)
  {
  }

  lemma EffectsSpawn(s: State, t: Tid, act: Act)
    requires Enabled(s, t, act) && Located(s, t, act) && act.Spawn?
    ensures Effects(s, Stepped(s, t, act), t, act)
  {
  }

  lemma EffectsCancelSend(s: State, t: Tid, act: Act)
    requires Enabled(s, t, act) && Located(s, t, act) && act.CancelSend?
    ensures Effects(s, Stepped(s, t, act), t, act)
  {
  }

  lemma EffectsCancelPass(s: State, t: Tid, act: Act)
    requires Enabled(s, t, act) && Located(s, t, act) && InCancelPass(act) && !act.CancelSend?
    ensures Effects(s, Stepped(s, t, act), t, act)
  {
  }

  lemma RingsMove(s: State, s': State, t: Tid, act: Act)
    requires Enabled(s, t, act) && RingsOk(s) && InflightOk(s) && Effects(s, s', t, act)
    ensures GoodRings(s, s', t, Subject(s, t, act))
  {
    var x := Subject(s, t, act);
    assert Accounted(s.entries, RingOf(s, t));
    RingAccounts(s, t, act);
    assert Entries(s, t, x) == One(InRing(s, t, x));
    RingCounts(s, t, act, Perform(x));
    forall y | y != x ensures Entries(s', t, y) == Entries(s, t, y) {
      OnlyTheSubject(s, t, act, y);
      RingCounts(s, t, act, Perform(y));
    }
  }

  lemma OnlyTheSubject(s: State, t: Tid, act: Act, y: Op)
    requires Enabled(s, t, act) && y != Subject(s, t, act)
    ensures !Gained(s, t, act, Perform(y)) && !Lost(s, t, act, Perform(y))
  {
  }

  // ---------------------------------------------------------------- links

  /** The links changed at most for operation x, and there to what its stop request asks for. */
  ghost predicate GoodLinks(s: State, s': State, x: Op) {
    && (forall u, y {:trigger Links(s', u, y)} :: y != x ==> Links(s', u, y) == Links(s, u, y))
    && (forall u {:trigger Links(s', u, x)} :: Links(s', u, x) == One(StopPending(Rec(s', x), u)))
  }

  lemma GoodLinksKeep(s: State, s': State, t: Tid, x: Op)
    requires LinksOk(s) && OnlyAt(s, s', t, x) && GoodLinks(s, s', x)
    ensures LinksOk(s')
  {
    forall u, y ensures Links(s', u, y) == One(StopPending(Rec(s', y), u)) {
      assert Links(s, u, y) == One(StopPending(Rec(s, y), u));
    }
  }

  /**
   Thread w's bucket h and its hand trade nodes; x may be gained or lost on the way. Every other link count stays,
   and x's count changes by exactly that.
   */
  lemma LinksShift(s: State, s': State, w: Tid, h: nat, x: Op, gain: bool, lose: bool)
    requires forall u {:trigger PcOf(s', u)} :: u != w ==> Hand(PcOf(s', u)) == Hand(PcOf(s, u))
    requires forall u, b {:trigger BucketOf(s', u, b)} :: u != w || b != h ==> BucketOf(s', u, b) == BucketOf(s, u, b)
    requires Home(x) == h
    requires Hand(PcOf(s', w)) == Hand(PcOf(s, w)) || (AtHome(Hand(PcOf(s', w)), h) && AtHome(Hand(PcOf(s, w)), h))
    requires forall y :: Count(BucketOf(s', w, h), y) + Count(Hand(PcOf(s', w)), y) + One(lose && y == x)
                      == Count(BucketOf(s, w, h), y) + Count(Hand(PcOf(s, w)), y) + One(gain && y == x)
    ensures forall u, y {:trigger Links(s', u, y)} ::
      Links(s', u, y) + One(lose && u == w && y == x) == Links(s, u, y) + One(gain && u == w && y == x)
  {
    forall u, y ensures Links(s', u, y) + One(lose && u == w && y == x) == Links(s, u, y) + One(gain && u == w && y == x) {
      if u == w && Home(y) != h {
        CountIn(Hand(PcOf(s', w)), y);
        CountIn(Hand(PcOf(s, w)), y);
      }
    }
  }

  /** Neither buckets nor hands changed, nor whether x's stop request is pending. */
  ghost predicate SameLinks(s: State, s': State, x: Op) {
    && s'.buckets == s.buckets
    && (forall u {:trigger PcOf(s', u)} :: Hand(PcOf(s', u)) == Hand(PcOf(s, u)))
    && (forall u {:trigger StopPending(Rec(s', x), u)} :: StopPending(Rec(s', x), u) <==> StopPending(Rec(s, x), u))
  }

  lemma SameLinksGood(s: State, s': State, x: Op)
    requires LinksOk(s) && SameLinks(s, s', x)
    ensures GoodLinks(s, s', x)
  {
    forall u, y ensures Links(s', u, y) == Links(s, u, y) {
      assert Hand(PcOf(s', u)) == Hand(PcOf(s, u)) && BucketOf(s', u, Home(y)) == BucketOf(s, u, Home(y));
    }
    forall u ensures Links(s', u, x) == One(StopPending(Rec(s', x), u)) {
      assert Links(s, u, x) == One(StopPending(Rec(s, x), u));
    }
  }

  lemma LinksStayBeginning(s: State, t: Tid, act: Act)
    requires Enabled(s, t, act) && Known(s, t, act) && Beginning(act)
    ensures SameLinks(s, Stepped(s, t, act), Subject(s, t, act))
  {
  }

  lemma LinksStayRing(s: State, t: Tid, act: Act)
    requires Enabled(s, t, act) && Known(s, t, act) && OnRing(act)
    ensures SameLinks(s, Stepped(s, t, act), Subject(s, t, act))
  {
  }

  /** After a shift that follows x's stop request, x is counted right. */
  lemma ShiftedGood(s: State, s': State, w: Tid, x: Op, gain: bool, lose: bool)
    requires LinksOk(s)
    requires forall u, y {:trigger Links(s', u, y)} ::
      Links(s', u, y) + One(lose && u == w && y == x) == Links(s, u, y) + One(gain && u == w && y == x)
    requires forall u :: One(StopPending(Rec(s', x), u)) + One(lose && u == w) == One(StopPending(Rec(s, x), u)) + One(gain && u == w)
    ensures GoodLinks(s, s', x)
  {
    forall u ensures Links(s', u, x) == One(StopPending(Rec(s', x), u)) {
      assert Links(s, u, x) == One(StopPending(Rec(s, x), u));
      assert One(StopPending(Rec(s', x), u)) + One(lose && u == w) == One(StopPending(Rec(s, x), u)) + One(gain && u == w);
    }
  }

  lemma LinksPush(s: State, t: Tid, act: Act)
    requires LinksOk(s) && Enabled(s, t, act) && Known(s, t, act) && (act.RemotePush? || act.FireInline?)
    ensures GoodLinks(s, Stepped(s, t, act), Subject(s, t, act))
  {
    var s', x := Stepped(s, t, act), Subject(s, t, act);
    var w := Rec(s, x).local;
    LinksShift(s, s', w, Home(x), x, true, false);
    ShiftedGood(s, s', w, x, true, false);
  }

  lemma LinksTake(s: State, t: Tid, act: Act)
    requires LinksOk(s) && HomesOk(s) && Enabled(s, t, act) && Known(s, t, act) && act.TakeBucket?
    ensures GoodLinks(s, Stepped(s, t, act), Subject(s, t, act))
  {
    var s', x := Stepped(s, t, act), Subject(s, t, act);
    assert AtHome(BucketOf(s, t, Home(x)), Home(x));
    LinksShift(s, s', t, Home(x), x, false, false);
    ShiftedGood(s, s', t, x, false, false);
  }

  /** Putting back what stood before x, and keeping in hand what stood behind it, loses x alone. */
  lemma FrontCounts(taken: seq<Op>, x: Op, q: seq<Op>)
    ensures forall y :: Count(Before(taken, x) + q, y) + Count(After(taken, x), y) + One(x in taken && y == x)
                     == Count(q, y) + Count(taken, y)
    ensures x !in taken ==> After(taken, x) == []
  {
    forall y ensures Count(Before(taken, x) + q, y) + Count(After(taken, x), y) + One(x in taken && y == x)
                  == Count(q, y) + Count(taken, y) {
      CountConcat(Before(taken, x), q, y);
      CountBeforeAfter(taken, x, y);
    }
  }

  lemma FrontShape(s: State, t: Tid, act: Act)
    requires Enabled(s, t, act) && Located(s, t, act) && act.PutFront?
    ensures
      var s', x, taken := Stepped(s, t, act), Subject(s, t, act), PcOf(s, t).taken;
      && BucketOf(s', t, Home(x)) == Before(taken, x) + BucketOf(s, t, Home(x))
      && Hand(PcOf(s', t)) == After(taken, x)
      && (forall u, b {:trigger BucketOf(s', u, b)} :: u != t || b != Home(x) ==> BucketOf(s', u, b) == BucketOf(s, u, b))
      && Rec(s', x) == (if x in taken then Rec(s, x).(request := Withdrawn) else Rec(s, x))
  {
  }

  lemma FrontGood(s: State, s': State, t: Tid, x: Op, taken: seq<Op>)
    requires LinksOk(s) && Hand(PcOf(s, t)) == taken && AtHome(taken, Home(x))
    requires forall u {:trigger PcOf(s', u)} :: u != t ==> PcOf(s', u) == PcOf(s, u)
    requires forall u, b {:trigger BucketOf(s', u, b)} :: u != t || b != Home(x) ==> BucketOf(s', u, b) == BucketOf(s, u, b)
    requires BucketOf(s', t, Home(x)) == Before(taken, x) + BucketOf(s, t, Home(x))
    requires Hand(PcOf(s', t)) == After(taken, x)
    requires forall u :: One(StopPending(Rec(s', x), u)) + One(x in taken && u == t) == One(StopPending(Rec(s, x), u))
    ensures GoodLinks(s, s', x)
  {
    FrontCounts(taken, x, BucketOf(s, t, Home(x)));
    SplitAt(taken, x);
    LinksShift(s, s', t, Home(x), x, false, x in taken);
    ShiftedGood(s, s', t, x, false, x in taken);
  }

  lemma LinksFront(s: State, t: Tid, act: Act)
    requires LinksOk(s) && HomesOk(s) && Enabled(s, t, act) && Known(s, t, act) && act.PutFront?
    requires OnlyAt(s, Stepped(s, t, act), t, Subject(s, t, act))
    ensures GoodLinks(s, Stepped(s, t, act), Subject(s, t, act))
  {
    var x, taken := Subject(s, t, act), PcOf(s, t).taken;
    assert PcHome(PcOf(s, t));
    FrontShape(s, t, act);
    FrontGood(s, Stepped(s, t, act), t, x, taken);
  }

  lemma LinksBack(s: State, t: Tid, act: Act)
    requires LinksOk(s) && HomesOk(s) && Enabled(s, t, act) && Known(s, t, act) && act.PutBack?
    ensures GoodLinks(s, Stepped(s, t, act), Subject(s, t, act))
  {
    var s', x, rest := Stepped(s, t, act), Subject(s, t, act), PcOf(s, t).rest;
    assert PcHome(PcOf(s, t));
    forall y ensures Count(rest + BucketOf(s, t, Home(x)), y) == Count(rest, y) + Count(BucketOf(s, t, Home(x)), y) {
      CountConcat(rest, BucketOf(s, t, Home(x)), y);
    }
    LinksShift(s, s', t, Home(x), x, false, false);
    ShiftedGood(s, s', t, x, false, false);
  }

  lemma LinksCancelTake(s: State, t: Tid, act: Act)
    requires LinksOk(s) && HomesOk(s) && Enabled(s, t, act) && act.CancelTake?
    ensures LinksOk(Stepped(s, t, act))
  {
    var s' := Stepped(s, t, act);
    assert AtHome(BucketOf(s, t, act.b), act.b);
    LinksShift(s, s', t, act.b, act.b, false, false);
    forall u, y ensures Links(s', u, y) == One(StopPending(Rec(s', y), u)) {
      assert Links(s, u, y) == One(StopPending(Rec(s, y), u)) && Rec(s', y) == Rec(s, y);
    }
  }

  lemma LinksCancelPutBack(s: State, t: Tid, act: Act)
    requires LinksOk(s) && HomesOk(s) && Enabled(s, t, act) && act.CancelPutBack?
    ensures LinksOk(Stepped(s, t, act))
  {
    var s', b, hand := Stepped(s, t, act), PcOf(s, t).b, PcOf(s, t).hand;
    assert PcHome(PcOf(s, t)) && Home(hand[0]) == b;
    forall y ensures Count(hand + BucketOf(s, t, b), y) == Count(hand, y) + Count(BucketOf(s, t, b), y) {
      CountConcat(hand, BucketOf(s, t, b), y);
    }
    LinksShift(s, s', t, b, b, false, false);
    forall u, y ensures Links(s', u, y) == One(StopPending(Rec(s', y), u)) {
      assert Links(s, u, y) == One(StopPending(Rec(s, y), u)) && Rec(s', y) == Rec(s, y);
    }
  }

  lemma LinksSend(s: State, t: Tid, act: Act)
    requires LinksOk(s) && HomesOk(s) && Enabled(s, t, act) && Known(s, t, act) && act.CancelSend?
    ensures GoodLinks(s, Stepped(s, t, act), Subject(s, t, act))
  {
    var s', x := Stepped(s, t, act), Subject(s, t, act);
    assert PcHome(PcOf(s, t));
    LinksShift(s, s', t, Home(x), x, false, true);
    ShiftedGood(s, s', t, x, false, true);
  }
}
