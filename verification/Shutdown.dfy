/**
 The counter that tells the owner of an `io_uring_exec` when it may tear down: every thread's local context counts
 itself in, and out again after its transfer run; the root thread's own never counts itself out.
 */
module Shutdown {
  type Tid = nat

  /** A thread's local context; `Leaving` is its destructor after the transfer run and before the subtraction. */
  datatype Local = Unborn | Alive | Leaving | Gone

  /** The root thread in `terminal_run`: not there yet, waiting, or past the wait. */
  datatype Owner = Busy | WaitingForLocals | Proceeding

  datatype State = State(root: Tid, running: nat, locals: map<Tid, Local>, owner: Owner)

  datatype Act = Construct(t: Tid) | TransferRun(t: Tid) | CountOut(t: Tid) | RequestStop | Look

  function LocalOf(s: State, t: Tid): Local { if t in s.locals then s.locals[t] else Unborn }

  predicate Enabled(s: State, act: Act) {
    match act
    // a thread gets its local context when it first asks for it; the root thread does so at the latest in `~io_uring_exec`
    case Construct(t) => LocalOf(s, t).Unborn?
    case TransferRun(t) => LocalOf(s, t).Alive?
    case CountOut(t) => LocalOf(s, t).Leaving?
    case RequestStop => s.owner.Busy? && !LocalOf(s, s.root).Unborn?
    case Look => s.owner.WaitingForLocals?
  }

  function Stepped(s: State, act: Act): State
    requires Enabled(s, act)
  {
    match act
    case Construct(t) => s.(locals := s.locals[t := Alive], running := s.running + 1)
    case TransferRun(t) => s.(locals := s.locals[t := Leaving])
    // the root thread's destructor returns before the subtraction
    case CountOut(t) => s.(locals := s.locals[t := Gone], running := if t == s.root || s.running == 0 then s.running else s.running - 1)
    case RequestStop => s.(owner := WaitingForLocals)
    case Look => if s.running > 1 then s else s.(owner := Proceeding)
  }

  /** The locals that are counted: all that were constructed, except those that counted themselves out. */
  ghost function Counted(s: State): set<Tid> {
    set t | t in s.locals && (t == s.root || s.locals[t].Alive? || s.locals[t].Leaving?)
  }

  ghost predicate Inv(s: State) {
    && s.running == |Counted(s)|
    && (forall t {:trigger s.locals[t]} :: t in s.locals ==> !s.locals[t].Unborn?)
    && (!s.owner.Busy? ==> s.root in s.locals)
  }

  lemma EveryStepKeeps(s: State, act: Act)
    requires Inv(s) && Enabled(s, act)
    ensures Inv(Stepped(s, act))
  {
    var s' := Stepped(s, act);
    match act
    case Construct(t) => assert Counted(s') == Counted(s) + {t};
    case TransferRun(t) => assert Counted(s') == Counted(s);
    case CountOut(t) =>
      assert t in Counted(s);
      assert Counted(s') == if t == s.root then Counted(s) else Counted(s) - {t};
    case _ => assert Counted(s') == Counted(s);
  }

  ghost predicate Run(ss: seq<State>, acts: seq<Act>) {
    && |ss| == |acts| + 1 && ss[0] == State(ss[0].root, 0, map[], Busy)
    && forall i {:trigger acts[i]} :: 0 <= i < |acts| ==> Enabled(ss[i], acts[i]) && ss[i + 1] == Stepped(ss[i], acts[i])
  }

  lemma {:induction false} EveryStateInv(ss: seq<State>, acts: seq<Act>, i: nat)
    requires Run(ss, acts) && i < |ss|
    ensures Inv(ss[i])
  {
    if i == 0 {
      assert Counted(ss[0]) == {};
    } else {
      EveryStateInv(ss, acts, i - 1);
      EveryStepKeeps(ss[i - 1], acts[i - 1]);
    }
  }

  /** The step is among the first i. */
  ghost predicate Did(acts: seq<Act>, i: nat, act: Act)
    requires i <= |acts|
  {
    exists k {:trigger acts[k]} :: 0 <= k < i && acts[k] == act
  }

  /** A local context is where the steps of its own thread have brought it. */
  lemma {:induction false} LocalIs(ss: seq<State>, acts: seq<Act>, i: nat, t: Tid)
    requires Run(ss, acts) && i < |ss|
    ensures LocalOf(ss[i], t).Unborn? <==> !Did(acts, i, Construct(t))
    ensures LocalOf(ss[i], t).Leaving? || LocalOf(ss[i], t).Gone? <==> Did(acts, i, TransferRun(t))
    ensures LocalOf(ss[i], t).Gone? <==> Did(acts, i, CountOut(t))
  {
    if i > 0 {
      LocalIs(ss, acts, i - 1, t);
      var act := acts[i - 1];
      assert forall a {:trigger Did(acts, i, a)} :: Did(acts, i, a) <==> Did(acts, i - 1, a) || a == act;
    }
  }

  /** The owner waits from its stop request until a look ends the wait. */
  lemma {:induction false} OwnerIs(ss: seq<State>, acts: seq<Act>, i: nat)
    requires Run(ss, acts) && i < |ss|
    ensures ss[i].owner.Busy? <==> !Did(acts, i, RequestStop)
    ensures ss[i].root == ss[0].root
  {
    if i > 0 {
      OwnerIs(ss, acts, i - 1);
      var act := acts[i - 1];
      assert Did(acts, i, RequestStop) <==> Did(acts, i - 1, RequestStop) || act == RequestStop;
    }
  }

  /** Thread t has no local context that could still run: it never had one, or it has counted it out. */
  ghost predicate Finished(acts: seq<Act>, i: nat, t: Tid)
    requires i <= |acts|
  {
    Did(acts, i, Construct(t)) ==> Did(acts, i, TransferRun(t)) && Did(acts, i, CountOut(t))
  }

  /**
   A look at the counter ends the owner's wait if and only if every local context of another thread that was ever
   constructed has finished its transfer run and counted itself out. Otherwise the owner goes on waiting.
   */
  lemma WaitEndsIff(ss: seq<State>, acts: seq<Act>, i: nat)
    requires Run(ss, acts) && i < |acts| && acts[i].Look?
    ensures ss[i + 1].owner.Proceeding? <==> forall t :: t != ss[0].root ==> Finished(acts, i, t)
    ensures ss[i + 1].owner.Proceeding? || ss[i + 1] == ss[i]
    ensures Did(acts, i, RequestStop)
  {
    var s := ss[i];
    EveryStateInv(ss, acts, i);
    OwnerIs(ss, acts, i);
    forall t ensures Finished(acts, i, t) <==> LocalOf(s, t).Unborn? || LocalOf(s, t).Gone? {
      LocalIs(ss, acts, i, t);
    }
    if t :| t != s.root && !Finished(acts, i, t) {
      SubsetSize({s.root, t}, Counted(s));
    } else {
      assert forall t :: t in Counted(s) ==> t == s.root || !Finished(acts, i, t);
      SubsetSize(Counted(s), {s.root});
    }
  }

  /** The local contexts of other threads that are at this point. */
  ghost function Others(s: State, l: Local): set<Tid> {
    set t | t in s.locals && t != s.root && s.locals[t] == l
  }

  ghost predicate Path(ss: seq<State>, acts: seq<Act>) {
    && |ss| == |acts| + 1
    && forall i {:trigger acts[i]} :: 0 <= i < |acts| ==> Enabled(ss[i], acts[i]) && ss[i + 1] == Stepped(ss[i], acts[i])
  }

  /** The step belongs to the transfer run of a thread other than this one. */
  predicate ByOther(root: Tid, act: Act) {
    (act.TransferRun? || act.CountOut?) && act.t != root
  }

  /** The wait can always end: it takes no more than that the other threads' transfer runs go on, and a look. */
  lemma {:induction false} WaitCanEnd(s: State) returns (ss: seq<State>, acts: seq<Act>)
    requires Inv(s) && s.owner.WaitingForLocals?
    ensures Path(ss, acts) && acts != [] && ss[0] == s && ss[|acts|].owner.Proceeding? && acts[|acts| - 1] == Look
    ensures forall k {:trigger acts[k]} :: 0 <= k < |acts| - 1 ==> ByOther(s.root, acts[k])
    decreases |Others(s, Alive)|, |Others(s, Leaving)|
  {
    if t :| t in Others(s, Alive) {
      var s1 := Stepped(s, TransferRun(t));
      EveryStepKeeps(s, TransferRun(t));
      SmallerWithout(Others(s1, Alive), Others(s, Alive), t);
      ss, acts := WaitCanEnd(s1);
      ss, acts := [s] + ss, [TransferRun(t)] + acts;
    } else if t :| t in Others(s, Leaving) {
      var s1 := Stepped(s, CountOut(t));
      EveryStepKeeps(s, CountOut(t));
      assert Others(s1, Alive) == Others(s, Alive) && t in Counted(s);
      SmallerWithout(Others(s1, Leaving), Others(s, Leaving), t);
      ss, acts := WaitCanEnd(s1);
      ss, acts := [s] + ss, [CountOut(t)] + acts;
    } else {
      forall t | t in Counted(s) ensures t == s.root {
        assert t !in Others(s, Alive) && t !in Others(s, Leaving);
      }
      SubsetSize(Counted(s), {s.root});
      ss, acts := [s, Stepped(s, Look)], [Look];
    }
  }

  /** So teardown always completes: the owner requests the stop, and its wait can end. */
  lemma TeardownCanComplete(s: State) returns (ss: seq<State>, acts: seq<Act>)
    requires Inv(s) && s.owner.Busy?
    ensures Path(ss, acts) && ss[0] == s && ss[|acts|].owner.Proceeding? && RequestStop in acts
    ensures forall k {:trigger acts[k]} :: 0 <= k < |acts| ==>
      acts[k] in {Construct(s.root), RequestStop, Look} || ByOther(s.root, acts[k])
    decreases LocalOf(s, s.root).Unborn?
  {
    if LocalOf(s, s.root).Unborn? {
      var act := Construct(s.root);
      EveryStepKeeps(s, act);
      ss, acts := TeardownCanComplete(Stepped(s, act));
      ss, acts := [s] + ss, [act] + acts;
    } else {
      EveryStepKeeps(s, RequestStop);
      ss, acts := WaitCanEnd(Stepped(s, RequestStop));
      ss, acts := [s] + ss, [RequestStop] + acts;
    }
  }

  lemma SmallerWithout(a: set<Tid>, b: set<Tid>, t: Tid)
    requires t in b && t !in a && a <= b
    ensures |a| < |b|
  {
    SubsetSize(a, b - {t});
  }

  lemma {:induction false} SubsetSize(a: set<Tid>, b: set<Tid>)
    requires a <= b
    ensures |a| <= |b|
  {
    if x :| x in a {
      SubsetSize(a - {x}, b - {x});
    }
  }
}
