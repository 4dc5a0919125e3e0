/**
 The launch loop of the run loop: a whole task queue is detached, put in push order, and every task's callback runs.
 A callback owns its node again: it may free it (its link becomes anything), and it may push onto the same queue.
 */
module TaskLaunch {
  import opened Lists
  import opened IntrusiveQueue
  import opened StoppingQueue

  /** What one callback does to its own node's link, and the nodes it (or another thread meanwhile) pushes. */
  datatype Effect = Effect(scribble: Node?, pushes: seq<Node>)

  /** Push order, or the reverse of it under the `locality` policy. `s` is the detached list, newest first. */
  ghost function Order(s: seq<Node>, locality: bool): seq<Node> {
    if locality then s else Reverse(s)
  }

  /** What the queue holds once the first `k` callbacks have run. */
  ghost function Refilled(effects: seq<Effect>, k: nat): seq<Node>
    requires k <= |effects|
  {
    if k == 0 then [] else Reverse(effects[k - 1].pushes) + Refilled(effects, k - 1)
  }

  /**
   The callers' side of `push` for callback `k`: what it pushes is in no queue and not among the tasks still to be
   launched. Its own node it may push again.
   */
  ghost predicate MayPush(order: seq<Node>, effects: seq<Effect>, world: set<Node>, k: nat)
    requires k < |order| == |effects|
  {
    && (forall x :: x in effects[k].pushes ==> x in world)
    && Distinct(effects[k].pushes) && Apart(effects[k].pushes, Refilled(effects, k))
    && (forall i :: k < i < |order| ==> order[i] !in effects[k].pushes)
    && order[k] in world && order[k] !in Refilled(effects, k)
  }

  /** One callback: the node's memory is the callee's again, and the queue receives its pushes. */
  method Callback(q: Queue, op: Node, effect: Effect, ghost s: seq<Node>)
    requires q.Holds(s) && op !in s && Distinct(effect.pushes) && Apart(effect.pushes, s)
    modifies q, op, effect.pushes
    ensures q.Holds(Reverse(effect.pushes) + s)
  {
    op.next := effect.scribble;
    Arrive(q, effect.pushes, s);
  }

  /** The tasks from the k-th on are still linked, in order, starting at `op`. */
  ghost predicate Remaining(op: Node?, order: seq<Node>, k: nat)
    reads order
  {
    && k <= |order| && op == (if k < |order| then order[k] else null)
    && forall i {:trigger order[i].next} :: k <= i < |order| ==>
         order[i].next == if i + 1 < |order| then order[i + 1] else null
  }

  /** The callers keep to their side in every callback. */
  ghost predicate AllMayPush(order: seq<Node>, effects: seq<Effect>, world: set<Node>) {
    |order| == |effects|
    && forall k {:trigger MayPush(order, effects, world, k)} :: 0 <= k < |order| ==> MayPush(order, effects, world, k)
  }

  /** The first k tasks have been launched, and the queue holds what their callbacks pushed. */
  ghost predicate Halfway(q: Queue, op: Node?, order: seq<Node>, effects: seq<Effect>, k: nat)
    requires |order| == |effects|
    reads order, q, if k <= |effects| then Refilled(effects, k) else []
  {
    k <= |order| && Remaining(op, order, k) && q.Holds(Refilled(effects, k))
  }

  lemma NoneLaunched(q: Queue, first: Node?, order: seq<Node>, effects: seq<Effect>)
    requires |order| == |effects| && Chain(first, order) && q.Holds([])
    ensures Halfway(q, first, order, effects, 0) && Distinct(order)
  {
    ChainDistinct(first, order);
  }

  /** `safe_for_each`: the successor is read before the callback runs, and nothing of the node after it. */
  method LaunchOne(q: Queue, op: Node, effects: seq<Effect>, k: nat, ghost order: seq<Node>, ghost world: set<Node>)
    returns (next: Node?)
    requires AllMayPush(order, effects, world) && Distinct(order) && Halfway(q, op, order, effects, k)
    modifies q, world
    ensures k < |order| && op == order[k] && Halfway(q, next, order, effects, k + 1)
  {
    assert MayPush(order, effects, world, k);
    next := op.next;
    Callback(q, op, effects[k], Refilled(effects, k));
  }

  /** The loop over a detached list that starts at `first` and is in launching order. */
  method LaunchAll(q: Queue, first: Node?, effects: seq<Effect>, ghost order: seq<Node>, ghost world: set<Node>)
    returns (launched: seq<Node>)
    requires AllMayPush(order, effects, world) && Chain(first, order) && q.Holds([])
    modifies q, world
    ensures launched == order
    ensures q.Holds(Refilled(effects, |effects|))
  {
    launched := [];
    var op := first;
    NoneLaunched(q, first, order, effects);
    while op != null
      invariant Halfway(q, op, order, effects, |launched|)
      invariant launched == order[..|launched|]
      decreases |order| - |launched|
    {
      var next := LaunchOne(q, op, effects, |launched|, order, world);
      launched := launched + [op];
      op := next;
    }
  }

  /**
   io_uring_exec_internal_run.h, `launch`: every detached task is launched exactly once, in push order (the reverse
   under `locality`), whatever the callbacks do to their nodes and to the queue.
   */
  method Launch(q: Queue, locality: bool, effects: seq<Effect>, ghost s: seq<Node>, ghost world: set<Node>)
    returns (launched: seq<Node>)
    requires q.Holds(s) && AllMayPush(Order(s, locality), effects, world)
    modifies q, s, world
    ensures launched == Order(s, locality)
    ensures q.Holds(Refilled(effects, |effects|))
  {
    var op := q.MoveAll([], s);
    if !locality {
      op := MakeFifo(op, s);
    }
    launched := LaunchAll(q, op, effects, Order(s, locality), world);
  }
}
