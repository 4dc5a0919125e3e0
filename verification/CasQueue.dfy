/**
 The same queue under any interleaving: each load of the head, each write of a link and each compare-and-swap is one
 step of one thread, and a thread's `expected` value may be arbitrarily old when its swap is tried. A node's address
 may be taken out, freed, reused and pushed again in between.
 */
module CasQueue {
  import opened Lists

  type Tid = nat
  type Addr = nat

  datatype Ptr = Null | At(a: Addr)

  /** Where a thread stands inside `push`/`push_all` (a private chain) or `move_all`. */
  datatype Pc =
    | Idle
    | PushLoad(chain: seq<Addr>)
    | PushLink(chain: seq<Addr>, expected: Ptr)
    | PushSwap(chain: seq<Addr>, expected: Ptr)
    | TakeLoad
    | TakeSwap(expected: Ptr)

  /** What the machine holds: the head word, the link of every node, and each thread's control state. */
  datatype Memory = Memory(head: Ptr, link: map<Addr, Ptr>, pcs: map<Tid, Pc>)

  /**
   The abstract queue: its list (newest first), which nodes each thread owns, every push in the order it took effect,
   and the batches taken, each in the order `make_fifo` gives it.
   */
  datatype Abstract = Abstract(list: seq<Addr>, owned: map<Tid, set<Addr>>, pushed: seq<Addr>, drained: seq<Addr>)

  /** One step of one thread. `Write`, `Alloc` and `Free` are what callers do to memory they own. */
  datatype Act =
    | StartPush(chain: seq<Addr>) | StartTake
    | Load | Link | SwapOk | SwapFail
    | Write(a: Addr, p: Ptr) | Alloc(a: Addr, p: Ptr) | Free(a: Addr)

  function PcOf(m: Memory, t: Tid): Pc {
    if t in m.pcs then m.pcs[t] else Idle
  }

  function LinkOf(link: map<Addr, Ptr>, a: Addr): Ptr {
    if a in link then link[a] else Null
  }

  function Owned(q: Abstract, t: Tid): set<Addr> {
    if t in q.owned then q.owned[t] else {}
  }

  function Elements(s: seq<Addr>): set<Addr> {
    set i | 0 <= i < |s| :: s[i]
  }

  ghost predicate Unused(q: Abstract, a: Addr) {
    a !in q.list && forall t :: a !in Owned(q, t)
  }

  /** Nodes of a private chain, each linked to the next; the last link is free to be anything. */
  ghost predicate PrivateChain(link: map<Addr, Ptr>, chain: seq<Addr>) {
    && chain != [] && Distinct(chain)
    && (forall i {:trigger LinkOf(link, chain[i])} :: 0 <= i < |chain| - 1 ==> LinkOf(link, chain[i]) == At(chain[i + 1]))
  }

  // ---------------------------------------------------------------- the atomic specification

  /** A chain is put in front, in one step. */
  function Prepend(q: Abstract, t: Tid, chain: seq<Addr>): Abstract {
    q.(list := chain + q.list, owned := q.owned[t := Owned(q, t) - Elements(chain)], pushed := q.pushed + Reverse(chain))
  }

  /** The whole list is taken, in one step. */
  function TakeAll(q: Abstract, t: Tid): Abstract {
    q.(list := [], owned := q.owned[t := Owned(q, t) + Elements(q.list)], drained := q.drained + Reverse(q.list))
  }

  /** What a step of the code amounts to: a successful swap is the whole operation, everything else is nothing. */
  function Specified(m: Memory, q: Abstract, t: Tid, act: Act): Abstract {
    match act
    case SwapOk =>
      (match PcOf(m, t)
       case PushSwap(chain, _) => Prepend(q, t, chain)
       case TakeSwap(_) => TakeAll(q, t)
       case _ => q)
    case Alloc(a, _) => q.(owned := q.owned[t := Owned(q, t) + {a}])
    case Free(a) => q.(owned := q.owned[t := Owned(q, t) - {a}])
    case _ => q
  }

  // ---------------------------------------------------------------- the steps of the code

  /**
   When a step may happen. A swap succeeds only if the head is what the thread expects, and may fail even then.
   The ownership guards are the callers' side: only owned nodes are pushed, written or freed.
   */
  ghost predicate Enabled(m: Memory, q: Abstract, t: Tid, act: Act) {
    match act
    case StartPush(chain) => PcOf(m, t) == Idle && PrivateChain(m.link, chain) && Elements(chain) <= Owned(q, t)
    case StartTake => PcOf(m, t) == Idle
    case Load => PcOf(m, t).PushLoad? || PcOf(m, t).TakeLoad?
    case Link => PcOf(m, t).PushLink?
    case SwapOk => (PcOf(m, t).PushSwap? || PcOf(m, t).TakeSwap?) && PcOf(m, t).expected == m.head
    case SwapFail => PcOf(m, t).PushSwap? || PcOf(m, t).TakeSwap?
    case Write(a, _) => PcOf(m, t) == Idle && a in Owned(q, t)
    case Alloc(a, _) => PcOf(m, t) == Idle && Unused(q, a)
    case Free(a) => PcOf(m, t) == Idle && a in Owned(q, t)
  }

  function Goto(m: Memory, t: Tid, pc: Pc): Memory {
    m.(pcs := m.pcs[t := pc])
  }

  /** detail.h, `push`, `push_all` (after its walk over private nodes) and `move_all`, one memory access at a time. */
  function Stepped(m: Memory, t: Tid, act: Act): Memory {
    match act
    case StartPush(chain) => Goto(m, t, PushLoad(chain))
    case StartTake => Goto(m, t, TakeLoad)
    case Load =>
      (match PcOf(m, t)
       case PushLoad(chain) => Goto(m, t, PushLink(chain, m.head))
       case _ => Goto(m, t, TakeSwap(m.head)))
    case Link =>
      (match PcOf(m, t)
       case PushLink(chain, expected) =>
         if chain == [] then m
         else Goto(m.(link := m.link[chain[|chain| - 1] := expected]), t, PushSwap(chain, expected))
       case _ => m)
    case SwapOk =>
      (match PcOf(m, t)
       case PushSwap(chain, _) => if chain == [] then m else Goto(m.(head := At(chain[0])), t, Idle)
       case _ => Goto(m.(head := Null), t, Idle))
    case SwapFail =>
      (match PcOf(m, t)
       case PushSwap(chain, _) => Goto(m, t, PushLink(chain, m.head))
       case _ => Goto(m, t, TakeSwap(m.head)))
    case Write(a, p) => m.(link := m.link[a := p])
    case Alloc(a, p) => m.(link := m.link[a := p])
    case Free(_) => m
  }

  // ---------------------------------------------------------------- the refinement relation

  /** Following links from `p` gives exactly `s`. */
  ghost predicate IsList(link: map<Addr, Ptr>, p: Ptr, s: seq<Addr>) {
    && p == (if s == [] then Null else At(s[0]))
    && forall i {:trigger LinkOf(link, s[i])} :: 0 <= i < |s| ==>
         LinkOf(link, s[i]) == if i + 1 < |s| then At(s[i + 1]) else Null
  }

  ghost predicate PcOk(m: Memory, q: Abstract, t: Tid) {
    match PcOf(m, t)
    case PushLoad(chain) => PrivateChain(m.link, chain) && Elements(chain) <= Owned(q, t)
    case PushLink(chain, _) => PrivateChain(m.link, chain) && Elements(chain) <= Owned(q, t)
    case PushSwap(chain, expected) =>
      && PrivateChain(m.link, chain) && Elements(chain) <= Owned(q, t)
      && LinkOf(m.link, chain[|chain| - 1]) == expected
    case _ => true
  }

  /** No node is owned twice, or owned while it is in the queue. */
  ghost predicate Exclusive(q: Abstract) {
    && (forall t, a :: a in Owned(q, t) ==> a !in q.list)
    && (forall t, u, a :: a in Owned(q, t) && a in Owned(q, u) ==> t == u)
  }

  ghost predicate Refines(m: Memory, q: Abstract) {
    && IsList(m.link, m.head, q.list) && Distinct(q.list)
    && Exclusive(q)
    && (forall t :: PcOk(m, q, t))
    && q.drained + Reverse(q.list) == q.pushed
  }

  // ---------------------------------------------------------------- proof: every step keeps the relation

  lemma WriteKeepsList(link: map<Addr, Ptr>, p: Ptr, s: seq<Addr>, a: Addr, v: Ptr)
    requires IsList(link, p, s) && a !in s
    ensures IsList(link[a := v], p, s)
  {
    forall i | 0 <= i < |s| ensures LinkOf(link[a := v], s[i]) == LinkOf(link, s[i]) {
      assert s[i] in s;
    }
  }

  lemma WriteKeepsChain(link: map<Addr, Ptr>, chain: seq<Addr>, a: Addr, v: Ptr)
    requires PrivateChain(link, chain) && a !in Elements(chain)
    ensures PrivateChain(link[a := v], chain)
  {
    forall i | 0 <= i < |chain| ensures LinkOf(link[a := v], chain[i]) == LinkOf(link, chain[i]) {
      assert chain[i] in Elements(chain);
    }
  }

  /** A write to memory thread `u` does not own leaves `u`'s step valid. */
  lemma WriteKeepsOthers(m: Memory, q: Abstract, m': Memory, a: Addr, v: Ptr, u: Tid)
    requires PcOk(m, q, u) && a !in Owned(q, u)
    requires m'.link == m.link[a := v] && PcOf(m', u) == PcOf(m, u)
    ensures PcOk(m', q, u)
  {
    match PcOf(m, u)
    case PushLoad(chain) => WriteKeepsChain(m.link, chain, a, v);
    case PushLink(chain, _) => WriteKeepsChain(m.link, chain, a, v);
    case PushSwap(chain, _) =>
      WriteKeepsChain(m.link, chain, a, v);
      assert chain[|chain| - 1] in Elements(chain);
    case _ =>
  }

  lemma StepGoto(m: Memory, q: Abstract, t: Tid, act: Act)
    requires Refines(m, q) && Enabled(m, q, t, act)
    requires act.StartPush? || act.StartTake? || act.Load? || act.SwapFail?
    ensures Refines(Stepped(m, t, act), Specified(m, q, t, act))
  {
    var m' := Stepped(m, t, act);
    forall u ensures PcOk(m', q, u) {
      assert PcOk(m, q, u) && PcOk(m, q, t);
    }
  }

  lemma StepWrite(m: Memory, q: Abstract, t: Tid, act: Act)
    requires Refines(m, q) && Enabled(m, q, t, act)
    requires act.Write?
    ensures Refines(Stepped(m, t, act), Specified(m, q, t, act))
  {
    var m' := Stepped(m, t, act);
    WriteKeepsList(m.link, m.head, q.list, act.a, act.p);
    forall u ensures PcOk(m', q, u) {
      assert PcOk(m, q, u);
      if u != t {
        WriteKeepsOthers(m, q, m', act.a, act.p, u);
      }
    }
  }

  lemma StepLink(m: Memory, q: Abstract, t: Tid, act: Act)
    requires Refines(m, q) && Enabled(m, q, t, act)
    requires act.Link?
    ensures Refines(Stepped(m, t, act), Specified(m, q, t, act))
  {
    var m' := Stepped(m, t, act);
    assert PcOk(m, q, t);
    var chain := PcOf(m, t).chain;
    var last := chain[|chain| - 1];
    assert last in Elements(chain);
    WriteKeepsList(m.link, m.head, q.list, last, PcOf(m, t).expected);
    forall u ensures PcOk(m', q, u) {
      assert PcOk(m, q, u);
      if u != t {
        WriteKeepsOthers(m, q, m', last, PcOf(m, t).expected, u);
      } else {
        assert forall b :: b != last ==> LinkOf(m'.link, b) == LinkOf(m.link, b);
      }
    }
  }

  lemma StepOwnership(m: Memory, q: Abstract, t: Tid, act: Act)
    requires Refines(m, q) && Enabled(m, q, t, act)
    requires act.Alloc? || act.Free?
    ensures Refines(Stepped(m, t, act), Specified(m, q, t, act))
  {
    var m', q' := Stepped(m, t, act), Specified(m, q, t, act);
    assert forall u :: u != t ==> Owned(q', u) == Owned(q, u) && PcOf(m', u) == PcOf(m, u);
    if act.Alloc? {
      WriteKeepsList(m.link, m.head, q.list, act.a, act.p);
    }
    forall u ensures PcOk(m', q', u) {
      assert PcOk(m, q, u);
      if act.Alloc? {
        WriteKeepsOthers(m, q, m', act.a, act.p, u);
      }
    }
  }

  /** A chain whose last link is the head it replaces becomes the list, whatever happened since `expected` was read. */
  lemma ChainBecomesList(link: map<Addr, Ptr>, head: Ptr, list: seq<Addr>, chain: seq<Addr>)
    requires IsList(link, head, list) && PrivateChain(link, chain)
    requires LinkOf(link, chain[|chain| - 1]) == head
    ensures IsList(link, At(chain[0]), chain + list)
  {
    var s := chain + list;
    assert s[0] == chain[0];
    forall i {:trigger LinkOf(link, s[i])} | 0 <= i < |s|
      ensures LinkOf(link, s[i]) == if i + 1 < |s| then At(s[i + 1]) else Null
    {
      if i < |chain| - 1 {
        assert s[i] == chain[i] && s[i + 1] == chain[i + 1];
        assert LinkOf(link, chain[i]) == At(chain[i + 1]);
      } else if i < |chain| {
        assert s[i] == chain[i] && (list != [] ==> s[i + 1] == list[0]);
      } else {
        assert s[i] == list[i - |chain|] && LinkOf(link, list[i - |chain|]) == LinkOf(link, s[i]);
      }
    }
  }

  lemma StepPrepend(m: Memory, q: Abstract, t: Tid)
    requires Refines(m, q) && Enabled(m, q, t, SwapOk) && PcOf(m, t).PushSwap?
    ensures Refines(Stepped(m, t, SwapOk), Specified(m, q, t, SwapOk))
  {
    var m', q' := Stepped(m, t, SwapOk), Specified(m, q, t, SwapOk);
    assert forall u :: u != t ==> Owned(q', u) == Owned(q, u) && PcOf(m', u) == PcOf(m, u);
    assert PcOk(m, q, t);
    var chain := PcOf(m, t).chain;
    assert forall i :: 0 <= i < |chain| ==> chain[i] in Elements(chain);
    ChainBecomesList(m.link, m.head, q.list, chain);
    forall x | x in chain ensures x !in q.list {
      assert x in Owned(q, t);
    }
    DistinctConcat(chain, q.list);
    ReverseAppend(chain, q.list);
    forall u ensures PcOk(m', q', u) {
      assert PcOk(m, q, u);
    }
    forall u, a | a in Owned(q', u) ensures a !in q'.list {
      assert a in Owned(q, u);
    }
  }

  lemma StepTakeAll(m: Memory, q: Abstract, t: Tid)
    requires Refines(m, q) && Enabled(m, q, t, SwapOk) && PcOf(m, t).TakeSwap?
    ensures Refines(Stepped(m, t, SwapOk), Specified(m, q, t, SwapOk))
  {
    var m', q' := Stepped(m, t, SwapOk), Specified(m, q, t, SwapOk);
    assert forall u :: u != t ==> Owned(q', u) == Owned(q, u) && PcOf(m', u) == PcOf(m, u);
    forall u ensures PcOk(m', q', u) {
      assert PcOk(m, q, u);
    }
    forall u, w, a | a in Owned(q', u) && a in Owned(q', w) ensures u == w {
      assert a in Elements(q.list) ==> a in q.list;
      assert (u != t ==> a in Owned(q, u)) && (w != t ==> a in Owned(q, w));
    }
    assert Reverse<Addr>([]) == [];
  }

  // ---------------------------------------------------------------- results

  /**
   Every step of every thread is one atomic step of the abstract queue, or none. Nothing is asked about what happened
   between the load and the swap: the head may have changed and come back to the same node.
   */
  lemma EveryStepRefines(m: Memory, q: Abstract, t: Tid, act: Act)
    requires Refines(m, q) && Enabled(m, q, t, act)
    ensures Refines(Stepped(m, t, act), Specified(m, q, t, act))
  {
    match act
    case Write(_, _) => StepWrite(m, q, t, act);
    case Link => StepLink(m, q, t, act);
    case Alloc(_, _) => StepOwnership(m, q, t, act);
    case Free(_) => StepOwnership(m, q, t, act);
    case SwapOk => if PcOf(m, t).PushSwap? { StepPrepend(m, q, t); } else { StepTakeAll(m, q, t); }
    case _ => StepGoto(m, q, t, act);
  }

  datatype System = System(m: Memory, q: Abstract)

  const EMPTY := System(Memory(Null, map[], map[]), Abstract([], map[], [], []))

  /** The system after a run, and whether every step of the run was allowed. */
  function After(run: seq<(Tid, Act)>): System {
    if run == [] then EMPTY
    else
      var s, (t, act) := After(run[..|run| - 1]), run[|run| - 1];
      System(Stepped(s.m, t, act), Specified(s.m, s.q, t, act))
  }

  ghost predicate Legal(run: seq<(Tid, Act)>) {
    forall k {:trigger run[k]} :: 0 <= k < |run| ==>
      Enabled(After(run[..k]).m, After(run[..k]).q, run[k].0, run[k].1)
  }

  lemma {:induction false} EveryRunRefines(run: seq<(Tid, Act)>)
    requires Legal(run)
    ensures Refines(After(run).m, After(run).q)
  {
    if run == [] {
      assert Reverse<Addr>([]) == [];
    } else {
      var n := |run| - 1;
      forall k | 0 <= k < n ensures Enabled(After(run[..n][..k]).m, After(run[..n][..k]).q, run[..n][k].0, run[..n][k].1) {
        assert run[..n][..k] == run[..k] && run[..n][k] == run[k];
      }
      EveryRunRefines(run[..n]);
      var s, step := After(run[..n]), run[n];
      assert Enabled(s.m, s.q, step.0, step.1);
      EveryStepRefines(s.m, s.q, step.0, step.1);
    }
  }

  /**
   First in, first out over a whole run: the batches taken, each in the order `make_fifo` gives it and one after the
   other, followed by what is still linked from the head in memory, oldest first, is the order in which the pushes
   took effect.
   */
  lemma FifoHistory(run: seq<(Tid, Act)>, list: seq<Addr>)
    requires Legal(run)
    requires IsList(After(run).m.link, After(run).m.head, list)
    ensures After(run).q.drained + Reverse(list) == After(run).q.pushed
  {
    EveryRunRefines(run);
    ListUnique(After(run).m.link, After(run).m.head, list, After(run).q.list);
  }

  lemma {:induction false} ListUnique(link: map<Addr, Ptr>, p: Ptr, s: seq<Addr>, u: seq<Addr>)
    requires IsList(link, p, s) && IsList(link, p, u)
    ensures s == u
  {
    ListAgree(link, p, s, u, |s|);
    ListAgree(link, p, u, s, |u|);
  }

  lemma {:induction false} ListAgree(link: map<Addr, Ptr>, p: Ptr, s: seq<Addr>, u: seq<Addr>, k: nat)
    requires IsList(link, p, s) && IsList(link, p, u) && k <= |s|
    ensures k <= |u| && s[..k] == u[..k]
  {
    if k > 0 {
      ListAgree(link, p, s, u, k - 1);
      if k > 1 {
        assert s[..k - 1][k - 2] == u[..k - 1][k - 2];
        assert LinkOf(link, s[k - 2]) == At(s[k - 1]);
        assert LinkOf(link, u[k - 2]) == if k - 1 < |u| then At(u[k - 1]) else Null;
      }
    }
  }

  /** `move_all` hands out a pointer to exactly the list it took, and its caller alone owns those nodes. */
  lemma TakeAllReturnsTheList(m: Memory, q: Abstract, t: Tid)
    requires Refines(m, q) && Enabled(m, q, t, SwapOk) && PcOf(m, t).TakeSwap?
    ensures IsList(Stepped(m, t, SwapOk).link, PcOf(m, t).expected, q.list)
    ensures forall a, u :: a in q.list ==> (a in Owned(Specified(m, q, t, SwapOk), u) <==> u == t)
  {
    var q' := Specified(m, q, t, SwapOk);
    forall a, u | a in q.list ensures a in Owned(q', u) <==> u == t {
      assert a !in Owned(q, u);
      if u == t {
        var i :| 0 <= i < |q.list| && q.list[i] == a;
        assert a in Elements(q.list);
      }
    }
  }

  lemma Extend(run: seq<(Tid, Act)>, t: Tid, act: Act) returns (run': seq<(Tid, Act)>)
    requires Legal(run) && Enabled(After(run).m, After(run).q, t, act)
    ensures Legal(run')
    ensures After(run') == System(Stepped(After(run).m, t, act), Specified(After(run).m, After(run).q, t, act))
  {
    run' := run + [(t, act)];
    assert run'[..|run|] == run;
    forall k | 0 <= k < |run'| ensures Enabled(After(run'[..k]).m, After(run'[..k]).q, run'[k].0, run'[k].1) {
      assert run'[..k] == run[..k];
      if k < |run| {
        assert run'[k] == run[k];
      }
    }
  }

  /** One other thread's business leaves a thread where it was. */
  ghost predicate OnlyThread(x: System, y: System, t: Tid) {
    forall u {:trigger PcOf(y.m, u)} {:trigger Owned(y.q, u)} :: u != t ==> PcOf(y.m, u) == PcOf(x.m, u) && Owned(y.q, u) == Owned(x.q, u)
  }

  lemma ElementsOne(a: Addr)
    ensures Elements([a]) == {a}
  {
    assert [a][0] in Elements([a]);
  }

  /** A thread allocates a node and goes up to the swap of its push, undisturbed. */
  lemma AboutToPush(run: seq<(Tid, Act)>, t: Tid, a: Addr) returns (run': seq<(Tid, Act)>)
    requires Legal(run) && PcOf(After(run).m, t) == Idle && Unused(After(run).q, a)
    ensures
      var x, y := After(run), After(run');
      && Legal(run') && OnlyThread(x, y, t) && PcOf(y.m, t) == PushSwap([a], x.m.head) && y.m.head == x.m.head
      && y.q == x.q.(owned := x.q.owned[t := Owned(x.q, t) + {a}])
  {
    ElementsOne(a);
    run' := Extend(run, t, Alloc(a, Null));
    run' := Extend(run', t, StartPush([a]));
    run' := Extend(run', t, Load);
    run' := Extend(run', t, Link);
  }

  lemma PushNew(run: seq<(Tid, Act)>, t: Tid, a: Addr) returns (run': seq<(Tid, Act)>)
    requires Legal(run) && PcOf(After(run).m, t) == Idle && Unused(After(run).q, a)
    ensures
      var x, y := After(run), After(run');
      && Legal(run') && OnlyThread(x, y, t) && PcOf(y.m, t) == Idle && y.m.head == At(a)
      && y.q.list == [a] + x.q.list && y.q.pushed == x.q.pushed + [a] && Owned(y.q, t) == Owned(x.q, t) - {a}
  {
    ElementsOne(a);
    run' := AboutToPush(run, t, a);
    var x, mid := After(run), After(run');
    run' := Extend(run', t, SwapOk);
    var y := After(run');
    forall u | u != t ensures PcOf(y.m, u) == PcOf(x.m, u) && Owned(y.q, u) == Owned(x.q, u) {
      assert PcOf(mid.m, u) == PcOf(x.m, u);
    }
  }

  /** A thread takes the list, which holds one node, and frees the node. */
  lemma TakeAndFree(run: seq<(Tid, Act)>, t: Tid, a: Addr) returns (run': seq<(Tid, Act)>)
    requires Legal(run) && PcOf(After(run).m, t) == Idle && After(run).q.list == [a]
    ensures
      var x, y := After(run), After(run');
      && Legal(run') && OnlyThread(x, y, t) && PcOf(y.m, t) == Idle && y.m.head == Null
      && y.q.list == [] && y.q.pushed == x.q.pushed && Owned(y.q, t) == Owned(x.q, t) - {a}
  {
    ElementsOne(a);
    run' := Extend(run, t, StartTake);
    run' := Extend(run', t, Load);
    run' := Extend(run', t, SwapOk);
    run' := Extend(run', t, Free(a));
  }

  /** Node a is taken, freed, and comes back on top of node b, while thread u waits with its swap. */
  lemma ComeBack(run: seq<(Tid, Act)>, t: Tid, a: Addr, b: Addr, u: Tid) returns (run': seq<(Tid, Act)>)
    requires Legal(run) && PcOf(After(run).m, t) == Idle && After(run).q.list == [a] && u != t && a != b
    requires forall w :: a !in Owned(After(run).q, w) && b !in Owned(After(run).q, w)
    ensures
      var x, y := After(run), After(run');
      && Legal(run') && PcOf(y.m, u) == PcOf(x.m, u) && y.m.head == At(a)
      && y.q.list == [a, b] && y.q.pushed == x.q.pushed + [b] + [a]
  {
    var x := After(run);
    run' := TakeAndFree(run, t, a);
    var y1 := After(run');
    forall w ensures a !in Owned(y1.q, w) && b !in Owned(y1.q, w) {
      assert w != t ==> Owned(y1.q, w) == Owned(x.q, w);
    }
    run' := PushNew(run', t, b);
    var y2 := After(run');
    forall w ensures a !in Owned(y2.q, w) {
      assert w != t ==> Owned(y2.q, w) == Owned(y1.q, w);
    }
    assert PcOf(y1.m, u) == PcOf(x.m, u) && PcOf(y2.m, u) == PcOf(y1.m, u);
    run' := PushNew(run', t, a);
  }

  /** Node 5 is alone in the queue, and thread 1, which has seen it, is about to push node 9. */
  lemma SwapPending() returns (run: seq<(Tid, Act)>)
    ensures
      var y := After(run);
      && Legal(run) && PcOf(y.m, 1) == PushSwap([9], At(5)) && PcOf(y.m, 0) == Idle
      && y.q.list == [5] && y.q.pushed == [5] && forall w :: 5 !in Owned(y.q, w) && 7 !in Owned(y.q, w)
  {
    run := PushNew([], 0, 5);
    var x := After(run);
    forall w ensures Owned(x.q, w) == {} {
      assert Owned(After([]).q, w) == {};
    }
    run := AboutToPush(run, 1, 9);
    var y := After(run);
    forall w ensures 5 !in Owned(y.q, w) && 7 !in Owned(y.q, w) {
      assert w != 1 ==> Owned(y.q, w) == Owned(x.q, w);
    }
  }

  /**
   The head can change and come back between a load and its swap, and the swap then succeeds: thread 1 has seen node 5
   on top; thread 0 takes the list, frees node 5, pushes node 7 and then a new node at the same address 5.
   */
  lemma HeadComesBack() returns (before: seq<(Tid, Act)>, run: seq<(Tid, Act)>)
    ensures Legal(before) && Legal(run)
    ensures PcOf(After(before).m, 1) == PushSwap([9], At(5)) && After(before).q.list == [5]
    ensures After(run).q.list == [9, 5, 7] && After(run).q.pushed == [5, 7, 5, 9]
  {
    before := SwapPending();
    run := ComeBack(before, 0, 5, 7, 1);
    run := Extend(run, 1, SwapOk);
  }
}
