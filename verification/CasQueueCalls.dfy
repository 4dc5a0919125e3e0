/**
 Whole calls of the queue in a run of any threads: what `push`, `push_all` and `move_all` have done when they return, when
 a swap can fail, and that a thread which is left alone returns.
 */
module CasQueueCalls {
  import L = Lists
  import opened CasQueue

  /** One step of one thread. */
  ghost predicate Steps(x: System, y: System, t: Tid, act: Act) {
    && Enabled(x.m, x.q, t, act)
    && y.m == Stepped(x.m, t, act) && y.q == Specified(x.m, x.q, t, act)
  }

  /** Any threads, any order, any number of steps. */
  ghost predicate Path(xs: seq<System>, acts: seq<(Tid, Act)>) {
    && |xs| == |acts| + 1
    && forall k {:trigger acts[k]} :: 0 <= k < |acts| ==> Steps(xs[k], xs[k + 1], acts[k].0, acts[k].1)
  }

  ghost predicate Run(xs: seq<System>, acts: seq<(Tid, Act)>) {
    Path(xs, acts) && xs[0] == EMPTY
  }

  /** These are the legal runs. */
  lemma {:induction false} RunsAreLegal(xs: seq<System>, acts: seq<(Tid, Act)>, k: nat)
    requires Run(xs, acts) && k <= |acts|
    ensures After(acts[..k]) == xs[k] && Legal(acts[..k])
  {
    if k > 0 {
      RunsAreLegal(xs, acts, k - 1);
      assert acts[..k][..k - 1] == acts[..k - 1];
      forall l | 0 <= l < k ensures Enabled(After(acts[..k][..l]).m, After(acts[..k][..l]).q, acts[..k][l].0, acts[..k][l].1) {
        assert acts[..k][..l] == acts[..k - 1][..l];
        if l == k - 1 {
          assert acts[..k - 1][..l] == acts[..k - 1];
        } else {
          assert acts[..k][l] == acts[..k - 1][l];
        }
      }
    }
  }

  lemma {:induction false} EveryStateRefines(xs: seq<System>, acts: seq<(Tid, Act)>, k: nat)
    requires Run(xs, acts) && k < |xs|
    ensures Refines(xs[k].m, xs[k].q)
  {
    if k == 0 {
      assert L.Reverse<Addr>([]) == [];
    } else {
      EveryStateRefines(xs, acts, k - 1);
      var act := acts[k - 1];
      EveryStepRefines(xs[k - 1].m, xs[k - 1].q, act.0, act.1);
    }
  }

  // ---------------------------------------------------------------- calls

  /** From one moment on and up to another, the thread is inside a call. */
  ghost predicate Inside(xs: seq<System>, i: nat, j: nat, t: Tid)
    requires j <= |xs|
  {
    forall k {:trigger xs[k]} :: i < k < j ==> PcOf(xs[k].m, t) != Idle
  }

  /** None of these steps is a swap of the thread that succeeds. */
  ghost predicate NoSwap(acts: seq<(Tid, Act)>, i: nat, j: nat, t: Tid)
    requires j <= |acts|
  {
    forall k {:trigger acts[k]} :: i <= k < j ==> acts[k] != (t, SwapOk)
  }

  predicate PushesChain(pc: Pc, chain: seq<Addr>) {
    (pc.PushLoad? || pc.PushLink? || pc.PushSwap?) && pc.chain == chain
  }

  predicate Takes(pc: Pc) {
    pc.TakeLoad? || pc.TakeSwap?
  }

  /** Inside a push, a step goes on with the same chain, unless it is the swap that ends it. */
  lemma PushGoesOn(x: System, y: System, t: Tid, u: Tid, act: Act, chain: seq<Addr>)
    requires Steps(x, y, u, act) && PushesChain(PcOf(x.m, t), chain) && chain != []
    ensures if (u, act) == (t, SwapOk) then PcOf(y.m, t) == Idle else PushesChain(PcOf(y.m, t), chain)
  {
  }

  lemma TakeGoesOn(x: System, y: System, t: Tid, u: Tid, act: Act)
    requires Steps(x, y, u, act) && Takes(PcOf(x.m, t))
    ensures if (u, act) == (t, SwapOk) then PcOf(y.m, t) == Idle else Takes(PcOf(y.m, t))
  {
  }

  lemma {:induction false} StillPushing(xs: seq<System>, acts: seq<(Tid, Act)>, i: nat, j: nat, t: Tid, chain: seq<Addr>)
    requires Path(xs, acts) && i < j <= |acts| && acts[i] == (t, StartPush(chain)) && Inside(xs, i, j + 1, t)
    ensures PushesChain(PcOf(xs[j].m, t), chain) && chain != [] && NoSwap(acts, i, j, t)
    decreases j
  {
    var (u, act) := acts[j - 1];
    if i < j - 1 {
      StillPushing(xs, acts, i, j - 1, t, chain);
      PushGoesOn(xs[j - 1], xs[j], t, u, act, chain);
    }
  }

  lemma {:induction false} StillTaking(xs: seq<System>, acts: seq<(Tid, Act)>, i: nat, j: nat, t: Tid)
    requires Path(xs, acts) && i < j <= |acts| && acts[i] == (t, StartTake) && Inside(xs, i, j + 1, t)
    ensures Takes(PcOf(xs[j].m, t)) && NoSwap(acts, i, j, t)
    decreases j
  {
    var (u, act) := acts[j - 1];
    if i < j - 1 {
      StillTaking(xs, acts, i, j - 1, t);
      TakeGoesOn(xs[j - 1], xs[j], t, u, act);
    }
  }

  /** What this step has done: the chain is on top of the list, in memory too, and no longer its thread's. */
  ghost predicate Prepended(x: System, y: System, t: Tid, chain: seq<Addr>) {
    && y.q.list == chain + x.q.list && y.q.pushed == x.q.pushed + L.Reverse(chain) && y.q.drained == x.q.drained
    && IsList(y.m.link, y.m.head, chain + x.q.list)
    && Owned(y.q, t) == Owned(x.q, t) - Elements(chain)
  }

  /**
   `push` and `push_all` return only when they have pushed: the call's last step is a swap that succeeds, it is the only
   one of the thread since the call began, and it puts exactly the chain the call was given on top of what is there.
   */
  lemma PushCompletes(xs: seq<System>, acts: seq<(Tid, Act)>, i: nat, j: nat, t: Tid, chain: seq<Addr>)
    requires Run(xs, acts) && i < j <= |acts| && acts[i] == (t, StartPush(chain))
    requires Inside(xs, i, j, t) && PcOf(xs[j].m, t) == Idle
    ensures i + 1 < j && acts[j - 1] == (t, SwapOk) && NoSwap(acts, i, j - 1, t)
    ensures Prepended(xs[j - 1], xs[j], t, chain)
  {
    var (u, act) := acts[j - 1];
    if i + 1 < j {
      StillPushing(xs, acts, i, j - 1, t, chain);
      PushGoesOn(xs[j - 1], xs[j], t, u, act, chain);
      EveryStateRefines(xs, acts, j);
    }
  }

  /** What this step has done: the list is the thread's, which holds a pointer to it, and the queue is empty. */
  ghost predicate Taken(x: System, y: System, t: Tid) {
    && y.q.list == [] && y.m.head == Null && y.q.pushed == x.q.pushed && y.q.drained == x.q.drained + L.Reverse(x.q.list)
    && Owned(y.q, t) == Owned(x.q, t) + Elements(x.q.list)
    && PcOf(x.m, t).TakeSwap? && IsList(y.m.link, PcOf(x.m, t).expected, x.q.list)
  }

  /** `move_all` returns only when it has taken the whole list, once. */
  lemma TakeCompletes(xs: seq<System>, acts: seq<(Tid, Act)>, i: nat, j: nat, t: Tid)
    requires Run(xs, acts) && i < j <= |acts| && acts[i] == (t, StartTake)
    requires Inside(xs, i, j, t) && PcOf(xs[j].m, t) == Idle
    ensures i + 1 < j && acts[j - 1] == (t, SwapOk) && NoSwap(acts, i, j - 1, t)
    ensures Taken(xs[j - 1], xs[j], t)
  {
    var (u, act) := acts[j - 1];
    if i + 1 < j {
      StillTaking(xs, acts, i, j - 1, t);
      TakeGoesOn(xs[j - 1], xs[j], t, u, act);
      EveryStateRefines(xs, acts, j - 1);
      TakeAllReturnsTheList(xs[j - 1].m, xs[j - 1].q, t);
    }
  }

  // ---------------------------------------------------------------- retries

  /** The thread reads the head: at the beginning, or when a swap fails. */
  predicate Reads(act: Act) {
    act.Load? || act.SwapFail?
  }

  ghost predicate NobodySwaps(acts: seq<(Tid, Act)>, i: nat, j: nat)
    requires j <= |acts|
  {
    forall k {:trigger acts[k]} :: i <= k < j ==> !acts[k].1.SwapOk?
  }

  /** The thread does no more than write its link. */
  ghost predicate OnlyLinks(acts: seq<(Tid, Act)>, i: nat, j: nat, t: Tid)
    requires j <= |acts|
  {
    forall k {:trigger acts[k]} :: i <= k < j && acts[k].0 == t ==> acts[k].1.Link?
  }

  predicate Expects(x: System, t: Tid) {
    var pc := PcOf(x.m, t);
    (pc.PushLink? || pc.PushSwap? || pc.TakeSwap?) && pc.expected == x.m.head
  }

  lemma HeadRead(x: System, y: System, t: Tid, act: Act)
    requires Steps(x, y, t, act) && Reads(act)
    ensures Expects(y, t)
  {
  }

  lemma HeadStays(x: System, y: System, t: Tid, u: Tid, act: Act)
    requires Steps(x, y, u, act) && Expects(x, t) && !act.SwapOk? && (u == t ==> act.Link?)
    ensures Expects(y, t)
  {
  }

  /** What a thread has read is still the head, unless some thread's swap has succeeded since. */
  lemma {:induction false} StillTheHead(xs: seq<System>, acts: seq<(Tid, Act)>, i: nat, j: nat, t: Tid)
    requires Path(xs, acts) && i < j <= |acts| && acts[i].0 == t && Reads(acts[i].1)
    requires OnlyLinks(acts, i + 1, j, t) && NobodySwaps(acts, i, j)
    ensures Expects(xs[j], t)
    decreases j
  {
    var (u, act) := acts[j - 1];
    if i + 1 < j {
      StillTheHead(xs, acts, i, j - 1, t);
      HeadStays(xs[j - 1], xs[j], t, u, act);
    } else {
      HeadRead(xs[i], xs[j], t, act);
    }
  }

  lemma WouldSucceed(x: System, t: Tid)
    requires Expects(x, t) && (PcOf(x.m, t).PushSwap? || PcOf(x.m, t).TakeSwap?)
    ensures Enabled(x.m, x.q, t, SwapOk)
  {
  }

  /**
   The queue is lock-free: a swap that cannot succeed has been overtaken by one of another thread that did, since its
   thread last read the head.
   */
  lemma OvertakenByProgress(xs: seq<System>, acts: seq<(Tid, Act)>, i: nat, j: nat, t: Tid)
    requires Path(xs, acts) && i < j <= |acts| && acts[i].0 == t && Reads(acts[i].1) && OnlyLinks(acts, i + 1, j, t)
    requires PcOf(xs[j].m, t).PushSwap? || PcOf(xs[j].m, t).TakeSwap?
    requires !Enabled(xs[j].m, xs[j].q, t, SwapOk)
    ensures exists k {:trigger acts[k]} :: i < k < j && acts[k].1 == SwapOk && acts[k].0 != t
  {
    if NobodySwaps(acts, i, j) {
      StillTheHead(xs, acts, i, j, t);
      WouldSucceed(xs[j], t);
      assert false;
    } else {
      var k :| i <= k < j && acts[k].1.SwapOk?;
    }
  }

  /** The thread's next step when nobody else takes one. */
  function NextAlone(m: Memory, t: Tid): Act {
    match PcOf(m, t)
    case PushLoad(_) => Load
    case PushLink(_, _) => Link
    case PushSwap(_, expected) => if expected == m.head then SwapOk else SwapFail
    case TakeLoad => Load
    case TakeSwap(expected) => if expected == m.head then SwapOk else SwapFail
    case Idle => StartTake
  }

  function StepsAlone(m: Memory, t: Tid): nat {
    match PcOf(m, t)
    case Idle => 0
    case PushLoad(_) => 3
    case PushLink(_, expected) => if expected == m.head then 2 else 4
    case PushSwap(_, expected) => if expected == m.head then 1 else 3
    case TakeLoad => 2
    case TakeSwap(expected) => if expected == m.head then 1 else 2
  }

  lemma NearerAlone(x: System, t: Tid) returns (y: System)
    requires Refines(x.m, x.q) && PcOf(x.m, t) != Idle
    ensures Steps(x, y, t, NextAlone(x.m, t)) && StepsAlone(y.m, t) < StepsAlone(x.m, t) && Refines(y.m, y.q)
  {
    assert PcOk(x.m, x.q, t);
    var act := NextAlone(x.m, t);
    y := System(Stepped(x.m, t, act), Specified(x.m, x.q, t, act));
    EveryStepRefines(x.m, x.q, t, act);
  }

  /** A thread inside a call returns within four steps of its own, whatever it has read, if the others pause. */
  lemma {:induction false} AloneItReturns(x: System, t: Tid) returns (xs: seq<System>, acts: seq<(Tid, Act)>)
    requires Refines(x.m, x.q)
    ensures Path(xs, acts) && xs[0] == x && PcOf(xs[|acts|].m, t) == Idle
    ensures |acts| <= 4 && forall k :: 0 <= k < |acts| ==> acts[k].0 == t
    ensures |acts| <= StepsAlone(x.m, t)
    decreases StepsAlone(x.m, t)
  {
    if PcOf(x.m, t) == Idle {
      xs, acts := [x], [];
    } else {
      var y := NearerAlone(x, t);
      xs, acts := AloneItReturns(y, t);
      PathBefore(x, xs, t, NextAlone(x.m, t), acts);
      xs, acts := [x] + xs, [(t, NextAlone(x.m, t))] + acts;
    }
  }

  lemma PathBefore(x: System, xs: seq<System>, t: Tid, act: Act, acts: seq<(Tid, Act)>)
    requires Path(xs, acts) && Steps(x, xs[0], t, act)
    ensures Path([x] + xs, [(t, act)] + acts)
  {
    var ys, bs := [x] + xs, [(t, act)] + acts;
    forall k {:trigger bs[k]} | 0 <= k < |bs| ensures Steps(ys[k], ys[k + 1], bs[k].0, bs[k].1) {
      if k > 0 {
        assert bs[k] == acts[k - 1] && ys[k] == xs[k - 1] && ys[k + 1] == xs[k];
      }
    }
  }
}
