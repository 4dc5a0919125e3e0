/**
 A stop request that is queued is served within sixteen steps of the run loop: the round robin over the stopping
 buckets, seen in the runs of the lifecycle.
 */
module LifecycleProgress {
  import opened Lists
  import opened Lifecycle
  import opened LifecycleInvariant
  import opened LifecycleRuns
  import opened LifecycleTheorems
  import R = RunLoop

  /** Thread t is in its cancel pass, with the operation still in hand. */
  predicate InPass(s: State, t: Tid, op: Op) {
    PcOf(s, t).Cancelling? && op in PcOf(s, t).hand
  }

  /** Taking the operation's bucket begins a pass with it in hand. */
  lemma PassBegins(s: State, t: Tid, act: Act, op: Op)
    requires Inv(s) && Enabled(s, t, act) && act == CancelTake(Home(op)) && StopPending(Rec(s, op), t)
    ensures InPass(Stepped(s, t, act), t, op)
  {
    PendingIsLinked(s, t, op);
  }

  /** Thread t never finds the SQ full in a cancel pass. */
  ghost predicate RoomInPasses(acts: seq<(Tid, Act)>, i: nat, j: nat, t: Tid)
    requires i <= j <= |acts|
  {
    forall k {:trigger acts[k]} :: i <= k < j ==> acts[k] != (t, CancelPutBack)
  }

  lemma {:induction false} StageFollows(ss: seq<State>, acts: seq<(Tid, Act)>, i: nat, j: nat, op: Op)
    requires |ss| == |acts| + 1 && i <= j <= |acts| && FollowsAlong(ss, acts, i, j, op)
    ensures Stage(Rec(ss[i], op).request) <= Stage(Rec(ss[j], op).request)
    ensures !Rec(ss[i], op).request.NotMade? ==> Rec(ss[j], op).local == Rec(ss[i], op).local
  {
    if i < j {
      StageFollows(ss, acts, i, j - 1, op);
      assert FollowsAt(ss, acts, j - 1, op);
    }
  }

  lemma StageGrows(ss: seq<State>, acts: seq<(Tid, Act)>, i: nat, j: nat, op: Op)
    requires Run(ss, acts) && i <= j <= |acts| && SameLife(acts, i, j, op)
    ensures Stage(Rec(ss[i], op).request) <= Stage(Rec(ss[j], op).request)
    ensures !Rec(ss[i], op).request.NotMade? ==> Rec(ss[j], op).local == Rec(ss[i], op).local
  {
    LifeFollows(ss, acts, i, j, op);
    StageFollows(ss, acts, i, j, op);
  }

  lemma PassStep(s: State, u: Tid, act: Act, t: Tid, op: Op)
    requires Inv(s) && Enabled(s, u, act) && (act.Connect? ==> act.op != op) && (u, act) != (t, CancelPutBack)
    requires InPass(s, t, op) || Rec(s, op).cancels >= 1
    ensures InPass(Stepped(s, u, act), t, op) || Rec(Stepped(s, u, act), op).cancels >= 1
  {
    InvKnows(s, u, act);
    EveryStepFollows(s, u, act, op);
    if u != t {
      OthersLeaveIt(s, u, act, t);
    }
  }

  /** By the end of a pass that has the operation in hand, its cancel has been sent. */
  lemma {:induction false} SentInPass(ss: seq<State>, acts: seq<(Tid, Act)>, i: nat, j: nat, t: Tid, op: Op)
    requires Run(ss, acts) && i <= j <= |acts| && SameLife(acts, i, j, op) && RoomInPasses(acts, i, j, t)
    requires InPass(ss[i], t, op)
    ensures InPass(ss[j], t, op) || Rec(ss[j], op).cancels >= 1
  {
    if i < j {
      SentInPass(ss, acts, i, j - 1, t, op);
      EveryStateInv(ss, acts, j - 1);
      PassStep(ss[j - 1], acts[j - 1].0, acts[j - 1].1, t, op);
    }
  }

  /**
   In these steps of a run, thread t's loop makes sixteen turns: from this value of its step counter on, it takes and
   finishes each bucket that is due.
   */
  ghost predicate SixteenPasses(acts: seq<(Tid, Act)>, i: nat, j: nat, t: Tid, counter: nat, starts: seq<nat>, ends: seq<nat>)
    requires i <= j <= |acts|
  {
    && |starts| == |ends| == R.WAYS
    && forall m {:trigger starts[m]} :: 0 <= m < R.WAYS ==>
         && i <= starts[m] < ends[m] < j
         && acts[starts[m]] == (t, CancelTake(R.Robin(R.Advance(counter, m)))) && acts[ends[m]] == (t, CancelEnd)
  }

  /** The stop request of the operation has been dealt with: one cancel was sent, or its uninstall took it out. */
  ghost predicate Served(s: State, op: Op) {
    && (Rec(s, op).cancels == 1 || Rec(s, op).request.Withdrawn?)
    && forall u {:trigger Links(s, u, op)} :: Links(s, u, op) == 0
  }

  /** A pass over the operation's bucket, from a moment at which its stop request is pending or past. */
  lemma ServedByPass(ss: seq<State>, acts: seq<(Tid, Act)>, p: nat, e: nat, t: Tid, op: Op)
    requires Run(ss, acts) && p < e < |acts| && SameLife(acts, p, e, op) && RoomInPasses(acts, p, e, t)
    requires acts[p] == (t, CancelTake(Home(op))) && acts[e] == (t, CancelEnd) && StopPending(Rec(ss[p], op), t)
    ensures Stage(Rec(ss[e], op).request) == 2
  {
    EveryStateInv(ss, acts, p);
    EveryStateInv(ss, acts, e);
    PassBegins(ss[p], t, acts[p].1, op);
    SentInPass(ss, acts, p + 1, e, t, op);
    assert Enabled(ss[e], t, CancelEnd);
    assert Tallied(ss[e].requested, Rec(ss[e], op));
  }

  /**
   Bounded progress: a stop request that is queued with thread t, or in its hand, is served by the time t's loop has
   made sixteen turns in which it found SQEs for its cancels, whatever all threads do meanwhile and wherever the step
   counter stands: one cancel has been sent, or the operation has completed and taken itself out.
   */
  lemma StopServedInSixteenTurns(ss: seq<State>, acts: seq<(Tid, Act)>, i: nat, j: nat, t: Tid, op: Op,
                                 counter: nat, starts: seq<nat>, ends: seq<nat>)
    requires Run(ss, acts) && i <= j <= |acts| && SameLife(acts, i, j, op) && RoomInPasses(acts, i, j, t)
    requires SixteenPasses(acts, i, j, t, counter, starts, ends)
    requires Links(ss[i], t, op) > 0
    ensures Served(ss[j], op)
  {
    EveryStateInv(ss, acts, i);
    EveryStateInv(ss, acts, j);
    assert Links(ss[i], t, op) == One(StopPending(Rec(ss[i], op), t));
    var m := R.EveryBucketHasItsTurn(counter, Home(op));
    var p, e := starts[m], ends[m];
    StageGrows(ss, acts, i, p, op);
    if Stage(Rec(ss[p], op).request) < 2 {
      ServedByPass(ss, acts, p, e, t, op);
      StageGrows(ss, acts, e, j, op);
    } else {
      StageGrows(ss, acts, p, j, op);
    }
  }
}
