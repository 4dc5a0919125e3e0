/**
 What the local thread does to a stopping queue: `uninstall_stoppable_callback` takes one operation out of it while
 other threads keep pushing, and the run loop's cancel pass turns queued stop requests into cancel SQEs.
 */
module StoppingQueue {
  import opened Lists
  import opened IntrusiveQueue

  lemma OneMoreArrival(xs: seq<Node>, i: nat, s: seq<Node>)
    requires i < |xs| && Distinct(xs) && Apart(xs, s)
    ensures xs[i] !in Reverse(xs[..i]) + s
    ensures [xs[i]] + (Reverse(xs[..i]) + s) == Reverse(xs[..i + 1]) + s
  {
    var r := Reverse(xs[..i]);
    forall k | 0 <= k < i ensures r[k] != xs[i] {
      assert r[k] == xs[i - 1 - k];
    }
    assert xs[i] in xs;
    assert xs[..i + 1] == xs[..i] + [xs[i]];
    ReverseAppend(xs[..i], [xs[i]]);
  }

  /** Other threads push `xs`, oldest first. */
  method Arrive(q: Queue, xs: seq<Node>, ghost s: seq<Node>)
    requires q.Holds(s) && Distinct(xs) && Apart(xs, s)
    modifies q, xs
    ensures q.Holds(Reverse(xs) + s)
  {
    var i := 0;
    assert Reverse(xs[..0]) + s == s;
    while i < |xs|
      invariant 0 <= i <= |xs|
      invariant q.Holds(Reverse(xs[..i]) + s)
    {
      OneMoreArrival(xs, i, s);
      q.Push(xs[i], [], Reverse(xs[..i]) + s);
      i := i + 1;
    }
    assert xs[..i] == xs;
  }

  /** Two null-terminated chains that share a node end in the same node. */
  lemma {:induction false} SharedEnd(m: Node?, s: seq<Node>, n: Node?, t: seq<Node>, i: nat, j: nat)
    requires Chain(m, s) && Chain(n, t)
    requires i < |s| && j < |t| && s[i] == t[j]
    ensures s[|s| - 1] == t[|t| - 1]
    decreases |s| - i
  {
    assert s[i].next == t[j].next;
    assert t[j].next == if j + 1 < |t| then t[j + 1] else null;
    if i + 1 < |s| {
      assert s[i].next == s[i + 1];
      SharedEnd(m, s, n, t, i + 1, j + 1);
    }
  }

  /** A set of nodes whose links all stay inside it holds no null-terminated list. */
  lemma {:induction false} ClosedNeverEnds(n: Node?, t: seq<Node>, c: seq<Node>, k: nat)
    requires Chain(n, t) && n in c && k < |t| && Closed(c)
    ensures t[k] in c && k + 1 < |t|
  {
    if k > 0 {
      ClosedNeverEnds(n, t, c, k - 1);
      assert t[k - 1].next == t[k];
    }
    var i :| 0 <= i < |c| && c[i] == t[k];
    assert c[i].next in c;
  }

  /** All that arrives before a `push_all` has done its swap: `x` before it loads the head, `r` while it retries. */
  ghost function Early(x: seq<Node>, r: seq<Node?>, stretch: seq<Node>): seq<Node> {
    if stretch == [] then x else x + Pushed(r)
  }

  lemma UnderEarly(x: seq<Node>, r: seq<Node?>, stretch: seq<Node>, s: seq<Node>)
    ensures stretch != [] ==> Under(r, Reverse(x) + s) == Reverse(Early(x, r, stretch)) + s
    ensures stretch == [] ==> Reverse(Early(x, r, stretch)) + s == Reverse(x) + s
  {
    ReverseAppend(x, Pushed(r));
    assert (Reverse(Pushed(r)) + Reverse(x)) + s == Reverse(Pushed(r)) + (Reverse(x) + s);
  }

  lemma {:induction false} PushedDistinct(r: seq<Node?>)
    requires forall i, j :: 0 <= i < j < |r| && r[i] != null ==> r[i] != r[j]
    ensures Distinct(Pushed(r))
  {
    if r != [] {
      PushedDistinct(r[1..]);
      if r[0] != null {
        assert r[0] !in r[1..];
      }
    }
  }

  /** What other threads push, at any time, is in no list of this thread's, and nothing is pushed twice. */
  ghost predicate Strangers(x1: seq<Node>, r1: seq<Node?>, x2: seq<Node>, r2: seq<Node?>, mine: seq<Node>) {
    && Distinct(x1 + x2) && Apart(x1 + x2, mine)
    && Foreign(r1 + r2, x1 + x2 + mine)
  }

  /** The nodes pushed during the two swings are apart from each other, from the arrivals and from this thread's. */
  lemma RivalsApart(x1: seq<Node>, r1: seq<Node?>, x2: seq<Node>, r2: seq<Node?>, mine: seq<Node>)
    requires Strangers(x1, r1, x2, r2, mine)
    ensures Distinct(Pushed(r1)) && Distinct(Pushed(r2)) && Apart(Pushed(r1), Pushed(r2))
    ensures Apart(Pushed(r1) + Pushed(r2), x1 + x2 + mine)
  {
    var r := r1 + r2;
    assert forall i :: 0 <= i < |r1| ==> r[i] == r1[i];
    assert forall i :: 0 <= i < |r2| ==> r[|r1| + i] == r2[i];
    PushedDistinct(r1);
    PushedDistinct(r2);
    forall n: Node | n in r1 || n in r2 ensures n !in x1 + x2 + mine {
      var i :| 0 <= i < |r| && r[i] == n;
    }
    forall n: Node | n in Pushed(r1) ensures n !in Pushed(r2) {
      var i :| 0 <= i < |r1| && r1[i] == n;
      forall j | 0 <= j < |r2| ensures r2[j] != n {
        assert r[i] != r[|r1| + j];
      }
    }
  }

  lemma EarlyArrivals(x1: seq<Node>, r1: seq<Node?>, x2: seq<Node>, r2: seq<Node?>, mine: seq<Node>, p: seq<Node>, b: seq<Node>)
    requires Strangers(x1, r1, x2, r2, mine)
    ensures Distinct(Early(x1, r1, p) + Early(x2, r2, b)) && Apart(Early(x1, r1, p) + Early(x2, r2, b), mine)
  {
    RivalsApart(x1, r1, x2, r2, mine);
    var e1, e2 := Early(x1, r1, p), Early(x2, r2, b);
    assert forall i :: 0 <= i < |x1| ==> (x1 + x2)[i] == x1[i];
    assert forall i :: 0 <= i < |x2| ==> (x1 + x2)[|x1| + i] == x2[i];
    assert forall n :: n in x1 || n in x2 ==> n in x1 + x2 + mine;
    assert forall n :: n in mine ==> n in x1 + x2 + mine;
    assert forall n :: n in Pushed(r1) || n in Pushed(r2) ==> n in Pushed(r1) + Pushed(r2);
    DistinctConcat(x1, Pushed(r1));
    DistinctConcat(x2, Pushed(r2));
    DistinctConcat(e1, e2);
  }

  /** The nodes the queue should hold after `self` has been unlinked from it. */
  ghost function Expected(s: seq<Node>, self: Node, x1: seq<Node>, x2: seq<Node>): multiset<Node> {
    (multiset(s) - multiset{self}) + multiset(x1) + if s == [] then multiset{} else multiset(x2)
  }

  lemma ArrivalsApart(x1: seq<Node>, x2: seq<Node>, self: Node, s: seq<Node>, tail: seq<Node>)
    requires Distinct(x1 + x2) && Apart(x1 + x2, [self] + s + tail)
    ensures Distinct(x1) && Distinct(x2) && Apart(x1, x2)
    ensures self !in x1 && Apart(x1, s) && Apart(x1, tail)
    ensures self !in x2 && Apart(x2, s) && Apart(x2, tail)
  {
    assert forall i :: 0 <= i < |x1| ==> (x1 + x2)[i] == x1[i];
    assert forall i :: 0 <= i < |x2| ==> (x1 + x2)[|x1| + i] == x2[i];
    var all := [self] + s + tail;
    assert all[0] == self;
    assert forall x :: x in x1 || x in x2 ==> x in x1 + x2 && x !in all;
  }

  ghost predicate SameEnd(s: seq<Node>, t: seq<Node>) {
    s != [] && t != [] && s[|s| - 1] == t[|t| - 1]
  }

  /** The list `self`'s link starts once everything before `self` has been pushed back on top of `x1`. */
  ghost function Tail(s: seq<Node>, self: Node, tail: seq<Node>, x1: seq<Node>): seq<Node> {
    if self in s then After(s, self)
    else if SameEnd(s, tail) then tail + Reverse(x1)
    else tail
  }

  lemma {:induction false} NoSharedNode(m: Node?, s: seq<Node>, n: Node?, t: seq<Node>)
    requires Chain(m, s) && Chain(n, t)
    ensures Apart(s, t) || SameEnd(s, t)
  {
    forall i, j | 0 <= i < |s| && 0 <= j < |t| && s[i] == t[j] ensures s[|s| - 1] == t[|t| - 1] {
      SharedEnd(m, s, n, t, i, j);
    }
  }

  /** A stretch that ends where a list starts makes one longer list. */
  lemma {:induction false} ChainJoins(n: Node?, t: seq<Node>, m: Node?, s: seq<Node>, y: seq<Node>)
    requires t != [] && n == t[0] && Linked(t)
    requires s != [] && s[|s| - 1] == t[|t| - 1] && Chain(m, s + y)
    ensures Chain(n, t + y)
  {
    var u, v := t + y, s + y;
    forall i {:trigger u[i].next} | 0 <= i < |u| ensures u[i].next == if i + 1 < |u| then u[i + 1] else null {
      if i < |t| - 1 {
        assert u[i] == t[i];
      } else {
        var k := i - |t| + |s|;
        assert u[i] == v[k] && v[k].next == if k + 1 < |v| then v[k + 1] else null;
      }
    }
  }

  /** `self` is queued: its link starts what stands behind it. */
  lemma {:induction false} TailWhenQueued(self: Node, s: seq<Node>)
    requires self in s
    requires forall i {:trigger s[i].next} :: IndexOf(s, self) <= i < |s| ==>
      s[i].next == if i + 1 < |s| then s[i + 1] else null
    ensures Chain(self.next, After(s, self))
  {
    var k, a := IndexOf(s, self), After(s, self);
    assert s[k].next == if k + 1 < |s| then s[k + 1] else null;
    forall i {:trigger a[i].next} | 0 <= i < |a| ensures a[i].next == if i + 1 < |a| then a[i + 1] else null {
      assert a[i] == s[k + 1 + i];
      assert s[k + 1 + i].next == if k + 2 + i < |s| then s[k + 2 + i] else null;
    }
  }

  /** The one node the first `push_all` relinks is neither `self` nor behind it, and in a stale list only its end. */
  lemma RelinkedNode(op: Node?, self: Node, s: seq<Node>, n: Node?, tail: seq<Node>)
    requires Chain(op, s) && Chain(n, tail)
    ensures self in s ==> forall i :: IndexOf(s, self) <= i < |s| ==> [s[i]] != LastOf(Before(s, self))
    ensures self !in s && SameEnd(s, tail) ==> forall i :: 0 <= i < |tail| - 1 ==> [tail[i]] != LastOf(Before(s, self))
    ensures self !in s && !SameEnd(s, tail) ==> forall i :: 0 <= i < |tail| ==> tail[i] !in s
  {
    ChainDistinct(op, s);
    ChainDistinct(n, tail);
    NoSharedNode(op, s, n, tail);
    SplitAt(s, self);
  }

  /** No rival is any of these nodes. */
  ghost predicate NoneOf(r: seq<Node?>, nodes: seq<Node>) {
    forall n {:trigger n in nodes} :: n in nodes ==> n !in r
  }

  /** First half: the whole queue is taken, then what stood before `self` goes back. */
  method PutBackBefore(q: Queue, op: Node?, self: Node, r: seq<Node?>, ghost x1: seq<Node>, ghost s: seq<Node>, ghost tail: seq<Node>)
    requires q.Holds(Reverse(x1)) && Chain(op, s) && Chain(self.next, tail) && s != []
    requires Apart(s, Reverse(x1)) && Foreign(r, s + Reverse(x1)) && NoneOf(r, [self]) && NoneOf(r, tail) && NoneOf(r, s)
    modifies q, s, set n: Node | n in r
    ensures q.Holds(Before(s, self) + Reverse(Early(x1, r, Before(s, self))))
    ensures Chain(self.next, Tail(s, self, tail, Early(x1, r, Before(s, self))))
  {
    ghost var y, e := Reverse(x1), Early(x1, r, Before(s, self));
    RelinkedNode(op, self, s, self.next, tail);
    UnderEarly(x1, r, Before(s, self), []);
    assert y + [] == y && Reverse(e) + [] == Reverse(e);
    q.PushAll(op, self, r, s, y);
    if self in s {
      forall i {:trigger s[i].next} | IndexOf(s, self) <= i < |s| ensures s[i].next == old(s[i].next) {
        assert s[i] in s;
      }
      TailWhenQueued(self, s);
    } else if SameEnd(s, tail) {
      SplitAt(s, self);
      assert self in [self];
      forall i {:trigger tail[i].next} | 0 <= i < |tail| - 1 ensures tail[i].next == tail[i + 1] {
        assert tail[i] in tail && tail[i].next == old(tail[i].next);
      }
      ChainJoins(self.next, tail, q.head, s, Reverse(e));
    } else {
      assert self in [self];
      forall i {:trigger tail[i].next} | 0 <= i < |tail| ensures tail[i].next == old(tail[i].next) {
        assert tail[i] in tail && tail[i] !in s;
      }
    }
  }

  lemma ExpectedElements(s: seq<Node>, self: Node, x1: seq<Node>, x2: seq<Node>)
    requires s != []
    ensures self in s ==>
      multiset(After(s, self) + (Reverse(x2) + (Before(s, self) + Reverse(x1)))) == Expected(s, self, x1, x2)
    ensures self !in s ==> multiset(Reverse(x2) + (s + Reverse(x1))) == Expected(s, self, x1, x2)
  {
    ReverseElements(x1);
    ReverseElements(x2);
    if self in s {
      SplitElements(s, self);
    }
  }

  /** A stale link corrupts: the head is now a node that does not belong, or a list that never ends. */
  lemma Corrupted(q: Queue, self: Node, x1: seq<Node>, x2: seq<Node>, s: seq<Node>, u: seq<Node>, t: seq<Node>)
    requires s != [] && self !in s && u == Reverse(x2) + (s + Reverse(x1))
    requires q.head != null
    requires q.head in u ==> Closed(u)
    requires q.Holds(t)
    ensures multiset(t) != Expected(s, self, x1, x2)
  {
    if q.head in u {
      ClosedNeverEnds(q.head, t, u, |t| - 1);
    } else {
      ExpectedElements(s, self, x1, x2);
      assert q.head == t[0] && t[0] in multiset(t);
      assert q.head !in multiset(u);
    }
  }

  /** Second half: push everything behind `self`'s link. Overlapping lists turn the queue into a ring. */
  method PutBackBehind(q: Queue, self: Node, r: seq<Node?>, ghost t: seq<Node>, ghost u: seq<Node>)
    requires q.Holds(u) && Chain(self.next, t) && Foreign(r, t + u)
    requires t != [] && t[0] in u ==> SameEnd(u, t)
    modifies q, t, set n: Node | n in r
    ensures t == [] ==> q.Holds(u)
    ensures t != [] && Apart(t, u) ==> q.Holds(t + Under(r, u))
    ensures t != [] ==> q.head == t[0]
    ensures t != [] && t[0] in Under(r, u) ==> Closed(Under(r, u))
  {
    if t != [] {
      UnderElements(r, u, t[0]);
      assert t[0] in t + u;
    }
    q.PushAll(self.next, null, r, t, u);
  }

  /** Where the pieces of the relinking may and may not overlap. */
  lemma Pieces(op: Node?, self: Node, x1: seq<Node>, x2: seq<Node>, s: seq<Node>, tail: seq<Node>)
    requires Chain(op, s) && Chain(self.next, tail)
    requires Distinct(x1 + x2) && Apart(x1 + x2, [self] + s + tail)
    ensures Apart(s, Reverse(x1))
    ensures Apart(x2, Before(s, self) + Reverse(x1))
    ensures self !in x2 && forall i :: 0 <= i < |Tail(s, self, tail, x1)| ==> Tail(s, self, tail, x1)[i] !in x2
    ensures self in s ==> Apart(After(s, self), Reverse(x2) + (Before(s, self) + Reverse(x1)))
    ensures self !in s && tail != [] && tail[0] in Reverse(x2) + (s + Reverse(x1)) ==>
      SameEnd(Reverse(x2) + (s + Reverse(x1)), Tail(s, self, tail, x1))
  {
    ArrivalsApart(x1, x2, self, s, tail);
    InReverse(x1);
    InReverse(x2);
    SplitAt(s, self);
    ChainDistinct(op, s);
    NoSharedNode(op, s, self.next, tail);
  }

  /** The second swing's rivals are in neither list it joins. */
  lemma SecondRivals(x1: seq<Node>, r1: seq<Node?>, x2: seq<Node>, r2: seq<Node?>, self: Node, s: seq<Node>, tail: seq<Node>)
    requires Strangers(x1, r1, x2, r2, [self] + s + tail)
    ensures
      var e1 := Early(x1, r1, Before(s, self));
      Foreign(r2, Tail(s, self, tail, e1) + (Reverse(x2) + (Before(s, self) + Reverse(e1))))
  {
    var r, mine, e1 := r1 + r2, [self] + s + tail, Early(x1, r1, Before(s, self));
    RivalsApart(x1, r1, x2, r2, mine);
    InReverse(e1);
    InReverse(x2);
    SplitAt(s, self);
    assert forall i :: 0 <= i < |r2| ==> r[|r1| + i] == r2[i];
    var all := Tail(s, self, tail, e1) + (Reverse(x2) + (Before(s, self) + Reverse(e1)));
    forall n: Node | n in all ensures n in Pushed(r1) || n in x1 + x2 + mine {}
    forall i | 0 <= i < |r2| && r2[i] != null ensures r2[i] !in all {
      assert r[|r1| + i] == r2[i];
      PushedHas(r2, i);
    }
  }

  lemma {:induction false} PushedHas(r: seq<Node?>, i: nat)
    requires i < |r| && r[i] != null
    ensures r[i] in Pushed(r)
  {
    if i > 0 {
      PushedHas(r[1..], i - 1);
    }
  }

  /** The first swing's rivals are nowhere in what it works on. */
  lemma FirstRivals(x1: seq<Node>, r1: seq<Node?>, x2: seq<Node>, r2: seq<Node?>, self: Node, s: seq<Node>, tail: seq<Node>)
    requires Strangers(x1, r1, x2, r2, [self] + s + tail)
    ensures Foreign(r1, s + Reverse(x1)) && NoneOf(r1, [self]) && NoneOf(r1, tail) && NoneOf(r1, s) && NoneOf(r1, x2)
  {
    var r, mine := r1 + r2, [self] + s + tail;
    InReverse(x1);
    assert forall i :: 0 <= i < |r1| ==> r[i] == r1[i];
    assert mine[0] == self;
    assert forall i :: 0 <= i < |r1| && r[i] != null ==> r[i] !in x1 + x2 + mine;
    assert forall n :: n in s || n in tail || n in [self] ==> n in mine && n in x1 + x2 + mine;
    assert forall n :: n in x1 || n in x2 ==> n in x1 + x2 + mine;
  }

  /** Both halves, once the queue turned out not to be empty. */
  method PutBack(q: Queue, op: Node?, self: Node, ghost x1: seq<Node>, r1: seq<Node?>, x2: seq<Node>, r2: seq<Node?>,
                 ghost s: seq<Node>, ghost tail: seq<Node>)
    requires q.Holds(Reverse(x1)) && Chain(op, s) && Chain(self.next, tail) && s != []
    requires Strangers(x1, r1, x2, r2, [self] + s + tail)
    modifies q, s, tail, x1, x2, set n: Node | n in r1 + r2
    ensures
      var e1 := Early(x1, r1, Before(s, self));
      var e2 := Early(x2, r2, Tail(s, self, tail, e1));
      && (self in s ==> q.Holds(After(s, self) + (Reverse(e2) + (Before(s, self) + Reverse(e1)))))
      && (self !in s && tail == [] ==> q.Holds(Reverse(e2) + (s + Reverse(e1))))
      && (self !in s && tail != [] ==>
            q.head != null && (q.head in Reverse(e2) + (s + Reverse(e1)) ==> Closed(Reverse(e2) + (s + Reverse(e1)))))
  {
    ghost var e1 := Early(x1, r1, Before(s, self));
    ghost var t, p := Tail(s, self, tail, e1), Before(s, self) + Reverse(e1);
    EarlyArrivals(x1, r1, x2, r2, [self] + s + tail, Before(s, self), []);
    Pieces(op, self, e1, x2, s, tail);
    ArrivalsApart(x1, x2, self, s, tail);
    FirstRivals(x1, r1, x2, r2, self, s, tail);
    SecondRivals(x1, r1, x2, r2, self, s, tail);
    SplitAt(s, self);
    InReverse(x1);
    UnderEarly(x2, r2, t, p);
    PutBackBefore(q, op, self, r1, x1, s, tail);
    Arrive(q, x2, p);
    assert Chain(self.next, t);
    PutBackBehind(q, self, r2, t, Reverse(x2) + p);
  }

  /** `move_all` empties the queue; then `x1` arrives. */
  method TakeAll(q: Queue, x1: seq<Node>, ghost s: seq<Node>) returns (op: Node?)
    requires q.Holds(s) && Distinct(x1) && Apart(x1, s)
    modifies q, x1
    ensures q.Holds(Reverse(x1)) && Chain(op, s)
  {
    op := q.MoveAll([], s);
    Arrive(q, x1, []);
    assert Reverse(x1) + [] == Reverse(x1);
    assert forall i :: 0 <= i < |s| ==> s[i] !in x1;
  }

  /** Exactly the expected nodes hang off the head, iff the link could not mislead the second `push_all`. */
  lemma IntactIff(q: Queue, self: Node, e1: seq<Node>, e2: seq<Node>, s: seq<Node>, stale: bool)
    requires s == [] ==> q.Holds(Reverse(e1))
    requires s != [] && self in s ==> q.Holds(After(s, self) + (Reverse(e2) + (Before(s, self) + Reverse(e1))))
    requires s != [] && self !in s && !stale ==> q.Holds(Reverse(e2) + (s + Reverse(e1)))
    requires s != [] && self !in s && stale ==>
      q.head != null && (q.head in Reverse(e2) + (s + Reverse(e1)) ==> Closed(Reverse(e2) + (s + Reverse(e1))))
    ensures (exists t: seq<Node> :: q.Holds(t) && multiset(t) == Expected(s, self, e1, e2))
            <==> (self in s || !stale || s == [])
  {
    ReverseElements(e1);
    if s == [] {
      assert multiset(Reverse(e1)) == Expected(s, self, e1, e2);
    } else {
      ExpectedElements(s, self, e1, e2);
      if self !in s && stale {
        forall t: seq<Node> | q.Holds(t) ensures multiset(t) != Expected(s, self, e1, e2) {
          Corrupted(q, self, e1, e2, s, Reverse(e2) + (s + Reverse(e1)), t);
        }
      }
    }
  }

  /** What arrives before the first and before the second swap, if there is a list to swap in. */
  ghost function Arrivals(x1: seq<Node>, r1: seq<Node?>, x2: seq<Node>, r2: seq<Node?>, s: seq<Node>, self: Node, tail: seq<Node>)
    : (seq<Node>, seq<Node>)
  {
    var e1 := Early(x1, r1, Before(s, self));
    (e1, Early(x2, r2, Tail(s, self, tail, e1)))
  }

  /**
   io_uring_exec_operation.h, `uninstall_stoppable_callback` after `stop_callback.reset()`. Other threads push `x1`
   before the first `push_all` and `r1` while it retries its swap, `x2` between the two and `r2` while the second
   retries. `tail` is the list that `self`'s own link starts. The last clause says exactly when the queue survives:
   `self` is queued, or its link is null, or the queue is empty.
   */
  method Uninstall(q: Queue, self: Node, x1: seq<Node>, r1: seq<Node?>, x2: seq<Node>, r2: seq<Node?>,
                   ghost s: seq<Node>, ghost tail: seq<Node>)
    requires q.Holds(s) && Chain(self.next, tail)
    requires Strangers(x1, r1, x2, r2, [self] + s + tail)
    modifies q, s, tail, x1, x2, set n: Node | n in r1 + r2
    ensures
      var (e1, e2) := Arrivals(x1, r1, x2, r2, s, self, tail);
      && (self in s ==> q.Holds(After(s, self) + (Reverse(e2) + (Before(s, self) + Reverse(e1)))))
      && (s != [] && self !in s && old(self.next) == null ==> q.Holds(Reverse(x2) + (s + Reverse(e1))))
      && (s == [] ==> q.Holds(Reverse(x1)))
    ensures
      var (e1, e2) := Arrivals(x1, r1, x2, r2, s, self, tail);
      (exists t: seq<Node> :: q.Holds(t) && multiset(t) == Expected(s, self, e1, e2))
      <==> (self in s || old(self.next) == null || s == [])
  {
    ArrivalsApart(x1, x2, self, s, tail);
    ghost var (e1, e2) := Arrivals(x1, r1, x2, r2, s, self, tail);
    var op := TakeAll(q, x1, s);
    if op == null {
      IntactIff(q, self, e1, e2, s, old(self.next) != null);
      return;
    }
    assert (forall i :: 0 <= i < |tail| ==> tail[i] !in x1) && Chain(self.next, tail);
    PutBack(q, op, self, x1, r1, x2, r2, s, tail);
    IntactIff(q, self, e1, e2, s, tail != []);
  }

  /** What an SQE asks for: the operation itself, or the cancellation of one. */
  datatype Request = Perform(op: Node) | Cancel(op: Node)

  /** The submission side of a local ring: at most `entries` unsubmitted SQEs, and the in-flight counter. */
  class Ring {
    const entries: nat
    var sq: seq<Request>
    var inflight: nat

    constructor (entries: nat)
      ensures this.entries == entries && sq == [] && inflight == 0
    {
      this.entries := entries;
      sq, inflight := [], 0;
    }

    /** `io_uring_get_sqe` and filling it in: fails, changing nothing, when the SQ is full. */
    method Acquire(r: Request) returns (ok: bool)
      modifies `sq
      ensures ok <==> |old(sq)| < entries
      ensures sq == if ok then old(sq) + [r] else old(sq)
    {
      ok := |sq| < entries;
      if ok {
        sq := sq + [r];
      }
    }
  }

  ghost function Cancels(s: seq<Node>): seq<Request> {
    seq(|s|, i requires 0 <= i < |s| => Cancel(s[i]))
  }

  lemma OneMoreCancel(s: seq<Node>, k: nat)
    requires k < |s|
    ensures Cancels(s[..k + 1]) == Cancels(s[..k]) + [Cancel(s[k])]
  {
  }

  /** How many queued stop requests the SQ has room for. */
  ghost function Room(entries: nat, used: nat, queued: nat): nat {
    if used >= entries then 0 else if entries - used <= queued then entries - used else queued
  }

  ghost predicate Cleared(s: seq<Node>)
    reads s
  {
    forall i {:trigger s[i].next} :: 0 <= i < |s| ==> s[i].next == null
  }

  /** Mid-pass: s[..k] are sent and cleared, s[k..] is still in hand, `y` arrived meanwhile. */
  ghost predicate MidPass(q: Queue, op: Node?, s: seq<Node>, k: nat, y: seq<Node>)
    reads q, s, y
  {
    && k <= |s| && op == (if k < |s| then s[k] else null)
    && (forall i {:trigger s[i].next} :: 0 <= i < k ==> s[i].next == null)
    && (forall i {:trigger s[i].next} :: k <= i < |s| ==> s[i].next == if i + 1 < |s| then s[i + 1] else null)
    && q.Holds(y)
  }

  /** The SQ has room: one more cancel SQE; the link of `op` is read before it is cleared. */
  method SendCancel(q: Queue, ring: Ring, op: Node, ghost s: seq<Node>, ghost k: nat, ghost y: seq<Node>)
    returns (next: Node?)
    requires MidPass(q, op, s, k, y) && Apart(s, y) && Distinct(s)
    modifies ring`inflight, op
    ensures MidPass(q, next, s, k + 1, y)
    ensures ring.inflight == old(ring.inflight) + 1
  {
    assert op == s[k] && op in s && op !in y;
    ring.inflight := ring.inflight + 1;
    next := op.next;
    op.next := null;
  }

  /**
   The SQ is full: everything not yet sent goes back, to be retried in a later round. Other threads push `r` while the
   swap is retried.
   */
  method PutBackUnsent(q: Queue, op: Node, r: seq<Node?>, ghost s: seq<Node>, ghost k: nat, ghost y: seq<Node>)
    requires MidPass(q, op, s, k, y) && Apart(s, y) && Distinct(s) && Foreign(r, s + y)
    modifies q, s, set n: Node | n in r
    ensures q.Holds(s[k..] + Under(r, y)) && Cleared(s[..k])
  {
    ghost var rest := s[k..];
    assert forall i :: 0 <= i < |rest| ==> rest[i] == s[k + i];
    assert forall n :: n in rest + y ==> n in s + y;
    q.PushAll(op, null, r, rest, y);
    forall i {:trigger s[i].next} | 0 <= i < k ensures s[i].next == null {
      assert s[i] !in rest && s[i] in s + y;
    }
  }

  /** The loop of the cancel pass over a bucket that has been taken. */
  method SendCancels(q: Queue, ring: Ring, first: Node?, r: seq<Node?>, ghost s: seq<Node>, ghost y: seq<Node>)
    returns (ghost k: nat)
    requires q.Holds(y) && Chain(first, s) && Apart(s, y) && Distinct(s) && Foreign(r, s + y)
    modifies q, s, ring, set n: Node | n in r
    ensures k == Room(ring.entries, |old(ring.sq)|, |s|)
    ensures q.Holds(s[k..] + if k < |s| then Under(r, y) else y) && Cleared(s[..k])
    ensures ring.sq == old(ring.sq) + Cancels(s[..k])
    ensures ring.inflight == old(ring.inflight) + k
  {
    var op := first;
    k := 0;
    while op != null
      invariant 0 <= k <= |s| && (k > 0 ==> |old(ring.sq)| + k <= ring.entries)
      invariant MidPass(q, op, s, k, y)
      invariant ring.sq == old(ring.sq) + Cancels(s[..k])
      invariant ring.inflight == old(ring.inflight) + k
      decreases |s| - k
    {
      assert op in s;
      var ok := ring.Acquire(Cancel(op));
      if !ok {
        PutBackUnsent(q, op, r, s, k, y);
        return;
      }
      OneMoreCancel(s, k);
      op := SendCancel(q, ring, op, s, k, y);
      k := k + 1;
    }
  }

  /**
   io_uring_exec_internal_run.h, the cancel pass: take one stopping bucket, give each operation a cancel SQE while
   the SQ has room, and put the rest back. Meanwhile other threads push `x`, and `r` while the put-back retries its
   swap.
   */
  method CancelPass(q: Queue, ring: Ring, x: seq<Node>, r: seq<Node?>, ghost s: seq<Node>) returns (ghost k: nat)
    requires q.Holds(s) && Distinct(x) && Apart(x, s) && Foreign(r, x + s)
    modifies q, s, x, ring, set n: Node | n in r
    ensures k == Room(ring.entries, |old(ring.sq)|, |s|)
    ensures q.Holds(s[k..] + Reverse(Early(x, r, s[k..]))) && Cleared(s[..k])
    ensures ring.sq == old(ring.sq) + Cancels(s[..k])
    ensures ring.inflight == old(ring.inflight) + k
  {
    var op := TakeAll(q, x, s);
    InReverse(x);
    assert forall n :: n in s + Reverse(x) ==> n in x + s;
    ChainDistinct(op, s);
    k := SendCancels(q, ring, op, r, s, Reverse(x));
    UnderEarly(x, r, s[k..], []);
    assert Reverse(x) + [] == Reverse(x);
    assert Reverse(Early(x, r, s[k..])) + [] == Reverse(Early(x, r, s[k..]));
  }
}
