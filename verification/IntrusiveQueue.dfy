/**
 The intrusive queue on the heap: nodes carry their own link, `push`, `move_all`, `push_all` and `make_fifo`
 rewrite links in place. A retry of a compare-and-swap is driven by `rivals`: before attempt i another thread
 pushes rivals[i] (or, when it is null, the weak compare-and-swap fails spuriously).
 */
module IntrusiveQueue {
  import opened Lists

  class Node {
    var next: Node?
    constructor ()
      ensures next == null
    {
      next := null;
    }
  }

  /** Following links from `n` visits exactly the nodes of `s`, in order, and ends at null. */
  ghost predicate Chain(n: Node?, s: seq<Node>)
    reads s
  {
    && n == (if s == [] then null else s[0])
    && forall i {:trigger s[i].next} :: 0 <= i < |s| ==> s[i].next == if i + 1 < |s| then s[i + 1] else null
  }

  /** Each node of the stretch but the last is linked to the one after it. */
  ghost predicate Linked(s: seq<Node>)
    reads s
  {
    forall i {:trigger s[i].next} :: 0 <= i < |s| - 1 ==> s[i].next == s[i + 1]
  }

  /** A null-terminated chain is acyclic: no node occurs twice. */
  lemma {:induction false} ChainDistinct(n: Node?, s: seq<Node>)
    requires Chain(n, s)
    ensures Distinct(s)
  {
    forall i, j | 0 <= i < j < |s| ensures s[i] != s[j] {
      ChainNoRepeat(n, s, i, j);
    }
  }

  lemma {:induction false} ChainNoRepeat(n: Node?, s: seq<Node>, i: nat, j: nat)
    requires Chain(n, s) && i < j < |s|
    ensures s[i] != s[j]
    decreases |s| - j
  {
    assert s[i].next == s[i + 1];
    if j + 1 == |s| {
      assert s[j].next == null;
    } else {
      ChainNoRepeat(n, s, i + 1, j + 1);
      assert s[j].next == s[j + 1];
    }
  }

  /** The heap determines the chain. */
  lemma {:induction false} ChainUnique(n: Node?, s: seq<Node>, t: seq<Node>)
    requires Chain(n, s) && Chain(n, t)
    ensures s == t
  {
    ChainAgree(n, s, t, |s|);
    ChainAgree(n, t, s, |t|);
  }

  lemma {:induction false} ChainAgree(n: Node?, s: seq<Node>, t: seq<Node>, k: nat)
    requires Chain(n, s) && Chain(n, t) && k <= |s|
    ensures k <= |t| && forall i :: 0 <= i < k ==> s[i] == t[i]
  {
    if k == 0 {
    } else {
      ChainAgree(n, s, t, k - 1);
      if k > 1 {
        assert s[k - 2].next == s[k - 1] && t[k - 2] == s[k - 2];
        assert t[k - 2].next == if k - 1 < |t| then t[k - 1] else null;
      }
    }
  }

  /** The nodes other threads pushed during failed attempts, oldest first. */
  ghost function Pushed(rivals: seq<Node?>): (r: seq<Node>)
    ensures forall x :: x in r ==> x in rivals
  {
    if rivals == [] then []
    else if rivals[0] == null then Pushed(rivals[1..])
    else [rivals[0]] + Pushed(rivals[1..])
  }

  lemma {:induction false} PushedSnoc(rivals: seq<Node?>, k: nat)
    requires k < |rivals|
    ensures Pushed(rivals[..k + 1]) == Pushed(rivals[..k]) + if rivals[k] == null then [] else [rivals[k]]
    decreases |rivals|
  {
    if k == 0 {
    } else {
      PushedSnoc(rivals[1..], k - 1);
      assert rivals[1..][..k] == rivals[..k + 1][1..];
      assert rivals[1..][..k - 1] == rivals[..k][1..];
    }
  }

  /** What the queue's list becomes under pushes alone. */
  ghost function Under(rivals: seq<Node?>, s: seq<Node>): seq<Node> {
    Reverse(Pushed(rivals)) + s
  }

  lemma UnderSnoc(rivals: seq<Node?>, k: nat, s: seq<Node>)
    requires k < |rivals|
    ensures Under(rivals[..k + 1], s) == (if rivals[k] == null then [] else [rivals[k]]) + Under(rivals[..k], s)
  {
    PushedSnoc(rivals, k);
    if rivals[k] != null {
      ReverseAppend(Pushed(rivals[..k]), [rivals[k]]);
    }
  }

  lemma {:induction false} UnderElements(rivals: seq<Node?>, s: seq<Node>, x: Node)
    ensures x in Under(rivals, s) ==> x in rivals || x in s
  {
    var p := Pushed(rivals);
    if x in Reverse(p) {
      var i :| 0 <= i < |p| && Reverse(p)[i] == x;
      assert p[|p| - 1 - i] == x;
    }
  }

  /** No rival is used twice, and none is linked or held by the caller. */
  ghost predicate Foreign(rivals: seq<Node?>, s: seq<Node>) {
    && (forall i :: 0 <= i < |rivals| && rivals[i] != null ==> rivals[i] !in s)
    && (forall i, j :: 0 <= i < j < |rivals| && rivals[i] != null ==> rivals[i] != rivals[j])
  }

  ghost predicate Apart(mine: seq<Node>, s: seq<Node>) {
    forall x :: x in mine ==> x !in s
  }

  /** The part of a chain that `push_all` takes: up to `until`, or all of it. */
  ghost function Stretch(whole: seq<Node>, until: Node?): seq<Node> {
    if until == null then whole else Before(whole, until)
  }

  ghost function LastOf(s: seq<Node>): seq<Node> {
    if s == [] then [] else [s[|s| - 1]]
  }

  /** All links of these nodes stay among them, but perhaps that of `last`. */
  ghost predicate ClosedBut(c: seq<Node>, last: Node?)
    reads c
  {
    forall i {:trigger c[i].next} :: 0 <= i < |c| ==> c[i] == last || c[i].next in c
  }

  ghost predicate Closed(c: seq<Node>)
    reads c
  {
    forall i {:trigger c[i].next} :: 0 <= i < |c| ==> c[i].next in c
  }

  lemma ChainClosed(n: Node?, s: seq<Node>)
    requires Chain(n, s) && s != []
    ensures ClosedBut(s, s[|s| - 1])
  {
  }

  /** One more interference: what it does to the list, and why it touches nothing else. */
  lemma Interference(rivals: seq<Node?>, k: nat, mine: seq<Node>, s: seq<Node>)
    requires k <= |rivals| && Foreign(rivals, mine + s)
    ensures Apart(mine, s) ==> Apart(mine, Under(rivals[..k], s))
    ensures k == |rivals| ==> rivals[..k] == rivals
    ensures k < |rivals| ==>
      Under(rivals[..k + 1], s) == (if rivals[k] == null then [] else [rivals[k]]) + Under(rivals[..k], s)
    ensures k < |rivals| && rivals[k] != null ==> rivals[k] !in Under(rivals[..k], s) && rivals[k] !in mine
  {
    forall x | Apart(mine, s) && x in mine ensures x !in Under(rivals[..k], s) {
      UnderElements(rivals[..k], s, x);
      assert x in mine + s;
    }
    if k < |rivals| {
      UnderSnoc(rivals, k, s);
      if rivals[k] != null {
        UnderElements(rivals[..k], s, rivals[k]);
        assert forall x :: x in mine ==> x in mine + s;
        assert forall x :: x in s ==> x in mine + s;
      }
    }
  }

  class Queue {
    var head: Node?

    constructor ()
      ensures Holds([])
    {
      head := null;
    }

    ghost predicate Holds(s: seq<Node>)
      reads this, s
    {
      Chain(head, s)
    }

    method CompareExchangeWeak(expected: Node?, desired: Node?, spurious: bool) returns (ok: bool, seen: Node?)
      modifies this
      ensures ok <==> old(head) == expected && !spurious
      ensures seen == old(head)
      ensures head == if ok then desired else old(head)
    {
      seen := head;
      ok := head == expected && !spurious;
      if ok {
        head := desired;
      }
    }

    /** Another thread's whole `push` of `r`, or nothing. */
    method Rival(r: Node?, ghost s: seq<Node>)
      requires r != null ==> r !in s
      modifies this, if r == null then {} else {r}
      ensures r == null ==> head == old(head)
      ensures r != null ==> head == r && r.next == old(head)
      ensures old(Holds(s)) ==> Holds((if r == null then [] else [r]) + s)
    {
      if r != null {
        r.next := head;
        head := r;
        ghost var t := [r as Node] + s;
        forall i | old(Holds(s)) && 0 <= i < |t|
          ensures t[i].next == if i + 1 < |t| then t[i + 1] else null
        {
          if i > 0 {
            assert t[i] == s[i - 1] && s[i - 1] != r;
          }
        }
      } else {
        assert [] + s == s;
      }
    }

    /** One turn of the `push_all` loop: write the last link, then try to swing the head to `first`. */
    method Attempt(first: Node, last: Node, node: Node?, quiet: bool, rival: Node?,
                   ghost chain: seq<Node>, ghost u: seq<Node>, ghost intact: bool) returns (done: bool, seen: Node?)
      requires node == head && (intact ==> Apart(chain, u) && Holds(u))
      requires chain != [] && chain[0] == first && chain[|chain| - 1] == last
      requires Linked(chain)
      requires Distinct(chain)
      requires rival != null ==> !quiet && rival !in u && rival !in chain && rival != head
      modifies this, last, if rival == null then {} else {rival}
      ensures done == quiet
      ensures Linked(chain)
      ensures last.next == old(head) && (rival != null ==> rival.next == old(head))
      ensures head == if quiet then first else if rival == null then old(head) else rival
      ensures !done ==> seen == head
      ensures intact && done ==> Holds(chain + u)
      ensures intact && !done ==> Holds((if rival == null then [] else [rival]) + u)
    {
      last.next := node;
      assert last in chain;
      assert intact ==> Holds(u);
      Rival(rival, u);
      done, seen := CompareExchangeWeak(node, first, !quiet && rival == null);
      if done && intact {
        ghost var t := chain + u;
        forall i | 0 <= i < |t| ensures t[i].next == if i + 1 < |t| then t[i + 1] else null {
          if i >= |chain| {
            assert t[i] == u[i - |chain|];
          }
        }
      }
    }

    /** Before a turn: the list is what rivals made of it, and in any case the head and all links but one stay in it. */
    ghost predicate InSwing(node: Node?, chain: seq<Node>, u: seq<Node>, last: Node, s: seq<Node>)
      reads this, u
    {
      && node == head && (u == [] <==> head == null) && (head != null ==> head in u)
      && (Apart(chain, s) ==> Apart(chain, u) && Holds(u))
      && (s != [] && s[|s| - 1] == last ==> u != [] && ClosedBut(u, last))
    }

    /** One turn, seen from the list. */
    method Turn(first: Node, last: Node, node: Node?, quiet: bool, rival: Node?, ghost chain: seq<Node>, ghost u: seq<Node>, ghost s: seq<Node>)
      returns (done: bool, seen: Node?)
      requires InSwing(node, chain, u, last, s)
      requires chain != [] && chain[0] == first && chain[|chain| - 1] == last && Linked(chain) && Distinct(chain)
      requires rival != null ==> !quiet && rival !in u && rival !in chain
      modifies this, last, if rival == null then {} else {rival}
      ensures done == quiet && Linked(chain)
      ensures done ==> head == first && last.next == old(head)
      ensures done && Apart(chain, s) ==> Holds(chain + u)
      ensures done && s != [] && s[|s| - 1] == last ==> Closed(u)
      ensures !done ==> InSwing(seen, chain, (if rival == null then [] else [rival]) + u, last, s)
    {
      done, seen := Attempt(first, last, node, quiet, rival, chain, u, Apart(chain, s));
    }

    /**
     The loop `push` and `push_all` both end in: load the head, link the last node to it, swing the head to the
     first node, and on failure start over from the head the swing has seen.
     */
    method Swing(first: Node, last: Node, rivals: seq<Node?>, ghost chain: seq<Node>, ghost s: seq<Node>)
      requires Holds(s) && Foreign(rivals, chain + s)
      requires chain != [] && chain[0] == first && chain[|chain| - 1] == last && Distinct(chain)
      requires Linked(chain)
      modifies this, last, set r: Node | r in rivals
      ensures Linked(chain)
      ensures head == first
      ensures Apart(chain, s) ==> Holds(chain + Under(rivals, s))
      ensures rivals == [] ==> last.next == old(head)
      ensures s != [] && s[|s| - 1] == last ==> Closed(Under(rivals, s))
    {
      var node := head;
      var attempt, done := 0, false;
      assert Under(rivals[..0], s) == s;
      if s != [] {
        ChainClosed(head, s);
      }
      while !done
        invariant attempt <= |rivals|
        invariant Linked(chain)
        invariant !done ==> InSwing(node, chain, Under(rivals[..attempt], s), last, s) && (attempt == 0 ==> head == old(head))
        invariant done ==> head == first && (rivals == [] ==> last.next == old(head))
        invariant done && Apart(chain, s) ==> Holds(chain + Under(rivals, s))
        invariant done && s != [] && s[|s| - 1] == last ==> Closed(Under(rivals, s))
        decreases |rivals| - attempt, !done
      {
        Interference(rivals, attempt, chain, s);
        var rival := if attempt == |rivals| then null else rivals[attempt];
        done, node := Turn(first, last, node, attempt == |rivals|, rival, chain, Under(rivals[..attempt], s), s);
        if !done {
          attempt := attempt + 1;
        }
      }
    }

    /** detail.h, `push`. */
    method Push(op: Node, rivals: seq<Node?>, ghost s: seq<Node>)
      requires Holds(s) && op !in s && Foreign(rivals, [op] + s)
      modifies this, op, set r: Node | r in rivals
      ensures Holds([op] + Under(rivals, s))
    {
      Swing(op, op, rivals, [op], s);
    }

    /** detail.h, `move_all`. */
    method MoveAll(rivals: seq<Node?>, ghost s: seq<Node>) returns (node: Node?)
      requires Holds(s) && Foreign(rivals, s)
      modifies this, set r: Node | r in rivals
      ensures Holds([])
      ensures Chain(node, Under(rivals, s))
    {
      node := head;
      var attempt, done := 0, false;
      assert Under(rivals[..0], s) == s;
      while !done
        invariant attempt <= |rivals|
        invariant !done ==> node == head && Holds(Under(rivals[..attempt], s))
        invariant done ==> Holds([]) && Chain(node, Under(rivals, s))
        decreases |rivals| - attempt, !done
      {
        var quiet := attempt == |rivals|;
        Interference(rivals, attempt, [], s);
        ghost var u := Under(rivals[..attempt], s);
        if !quiet {
          Rival(rivals[attempt], u);
          u := Under(rivals[..attempt + 1], s);
        }
        assert Holds(u);
        done, node := CompareExchangeWeak(node, null, !quiet && rivals[attempt] == null);
        assert Chain(node, u);
        if !quiet {
          attempt := attempt + 1;
        }
      }
    }

    /**
     detail.h, `push_all(first, node && node != until)`: walk to the last node before `until`, then push
     that stretch in one swing. `whole` is the chain that starts at `first`; the caller owns it unless it
     overlaps the queue: when it ends in the queue's last node, the queue's links run in a ring afterwards.
     */
    method PushAll(first: Node?, until: Node?, rivals: seq<Node?>, ghost whole: seq<Node>, ghost s: seq<Node>)
      requires Holds(s) && Chain(first, whole)
      requires Foreign(rivals, whole + s)
      modifies this, whole, set r: Node | r in rivals
      ensures Stretch(whole, until) == [] ==> Holds(s)
      ensures Stretch(whole, until) != [] && Apart(Stretch(whole, until), s) ==> Holds(Stretch(whole, until) + Under(rivals, s))
      ensures Stretch(whole, until) != [] ==> head == first
      ensures Stretch(whole, until) != [] && LastOf(Stretch(whole, until)) == LastOf(s) ==> Closed(Under(rivals, s))
      ensures forall x :: x in whole && [x] != LastOf(Stretch(whole, until)) ==> x.next == old(x.next)
    {
      ghost var chain := Stretch(whole, until);
      if first == null || first == until {
        return;
      }
      ChainDistinct(first, whole);
      var last: Node := first;
      ghost var k := 0;
      while last.next != null && last.next != until
        invariant 0 <= k < |chain| && last == whole[k]
        invariant unchanged(this) && unchanged(whole)
        decreases |chain| - k
      {
        last := last.next;
        k := k + 1;
      }
      assert forall x :: x in chain ==> x in whole;
      Swing(first, last, rivals, chain, s);
    }
  }

  /** detail.h, `make_fifo`: reverse a detached list in place, with a sentinel on the stack standing before it. */
  method MakeFifo(node: Node?, ghost s: seq<Node>) returns (r: Node?)
    requires Chain(node, s)
    modifies s
    ensures Chain(r, Reverse(s))
  {
    if node == null {
      return null;
    }
    ChainDistinct(node, s);
    var sentinel := new Node();
    sentinel.next := node;
    var prev: Node, cur: Node? := sentinel, node;
    ghost var k := 0;
    while cur != null
      invariant 0 <= k <= |s| && fresh(sentinel) && sentinel !in s
      invariant prev == if k == 0 then sentinel else s[k - 1]
      invariant cur == if k < |s| then s[k] else null
      invariant forall i {:trigger s[i].next} :: 0 <= i < k ==> s[i].next == if i == 0 then sentinel else s[i - 1]
      invariant forall i {:trigger s[i].next} :: k <= i < |s| ==> s[i].next == if i + 1 < |s| then s[i + 1] else null
      decreases |s| - k
    {
      var next := cur.next;
      cur.next := prev;
      prev := cur;
      cur := next;
      k := k + 1;
    }
    node.next := null;
    r := prev;
  }

  /** A list that was reversed, reversed back. */
  method MakeFifoAgain(node: Node?, ghost s: seq<Node>) returns (r: Node?)
    requires Chain(node, Reverse(s))
    modifies s
    ensures Chain(r, s)
  {
    InReverse(s);
    ReverseTwice(s);
    r := MakeFifo(node, Reverse(s));
  }

  /** Two reversals in place give back the very same list, link by link. */
  method MakeFifoTwice(node: Node?, ghost s: seq<Node>) returns (r: Node?)
    requires Chain(node, s)
    modifies s
    ensures r == node && Chain(r, s)
    ensures forall i {:trigger s[i].next} :: 0 <= i < |s| ==> s[i].next == old(s[i].next)
  {
    r := MakeFifo(node, s);
    r := MakeFifoAgain(r, s);
  }
}
