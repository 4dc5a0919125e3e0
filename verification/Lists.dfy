/** Sequences as the program's linked lists see them: reversal, membership counts, and the split at one element. */
module Lists {

  function Reverse<T>(s: seq<T>): (r: seq<T>)
    ensures |r| == |s|
    ensures forall i :: 0 <= i < |s| ==> r[i] == s[|s| - 1 - i]
  {
    seq(|s|, i requires 0 <= i < |s| => s[|s| - 1 - i])
  }

  lemma InReverse<T>(s: seq<T>)
    ensures forall x :: x in Reverse(s) <==> x in s
  {
    var r := Reverse(s);
    forall x | x in r ensures x in s {
      var i :| 0 <= i < |r| && r[i] == x;
      assert s[|s| - 1 - i] == x;
    }
    forall x | x in s ensures x in r {
      var i :| 0 <= i < |s| && s[i] == x;
      assert r[|s| - 1 - i] == x;
    }
  }

  lemma ReverseTwice<T>(s: seq<T>)
    ensures Reverse(Reverse(s)) == s
  {
  }

  lemma ReverseAppend<T>(s: seq<T>, t: seq<T>)
    ensures Reverse(s + t) == Reverse(t) + Reverse(s)
  {
  }

  lemma {:induction false} ReverseElements<T>(s: seq<T>)
    ensures multiset(Reverse(s)) == multiset(s)
  {
    if s == [] {
    } else {
      ReverseElements(s[1..]);
      assert s == [s[0]] + s[1..];
      assert Reverse(s) == Reverse(s[1..]) + [s[0]];
    }
  }

  ghost predicate Distinct<T>(s: seq<T>) {
    forall i, j :: 0 <= i < j < |s| ==> s[i] != s[j]
  }

  lemma DistinctConcat<T>(s: seq<T>, t: seq<T>)
    requires Distinct(s) && Distinct(t) && forall x :: x in s ==> x !in t
    ensures Distinct(s + t)
  {
    forall i, j | 0 <= i < j < |s + t| ensures (s + t)[i] != (s + t)[j] {
      if i < |s| <= j {
        assert s[i] in s && t[j - |s|] in t;
      }
    }
  }

  /** Position of the first `x`, or |s| when there is none. */
  function IndexOf<T(==)>(s: seq<T>, x: T): (k: nat)
    ensures k <= |s|
    ensures forall i :: 0 <= i < k ==> s[i] != x
    ensures k < |s| ==> s[k] == x
    ensures k == |s| <==> x !in s
  {
    if s == [] then 0 else if s[0] == x then 0 else 1 + IndexOf(s[1..], x)
  }

  /** What stands before the first `x` (everything, when `x` is absent). */
  function Before<T(==)>(s: seq<T>, x: T): seq<T> {
    s[..IndexOf(s, x)]
  }

  /** What stands after the first `x` (nothing, when `x` is absent). */
  function After<T(==)>(s: seq<T>, x: T): seq<T> {
    if x in s then s[IndexOf(s, x) + 1..] else []
  }

  lemma SplitAt<T>(s: seq<T>, x: T)
    ensures x in s ==> s == Before(s, x) + [x] + After(s, x)
    ensures x !in s ==> s == Before(s, x)
  {
  }

  /** Taking one occurrence out of a list. */
  lemma SplitElements<T>(s: seq<T>, x: T)
    requires x in s
    ensures multiset(Before(s, x)) + multiset(After(s, x)) == multiset(s) - multiset{x}
  {
    SplitAt(s, x);
    var b, a := Before(s, x), After(s, x);
    assert multiset(b + [x] + a) == multiset(b) + multiset{x} + multiset(a);
  }

  // ---------------------------------------------------------------- counting

  function One(b: bool): nat {
    if b then 1 else 0
  }

  /** How often `x` occurs in `s`. */
  function Count<T(==)>(s: seq<T>, x: T): nat {
    if s == [] then 0 else One(s[0] == x) + Count(s[1..], x)
  }

  lemma {:induction false} CountConcat<T>(s: seq<T>, u: seq<T>, x: T)
    ensures Count(s + u, x) == Count(s, x) + Count(u, x)
  {
    if s == [] {
      assert s + u == u;
    } else {
      CountConcat(s[1..], u, x);
      assert (s + u)[1..] == s[1..] + u;
    }
  }

  lemma {:induction false} CountIn<T>(s: seq<T>, x: T)
    ensures x in s <==> Count(s, x) > 0
  {
    if s == [] {
    } else {
      CountIn(s[1..], x);
      assert x in s <==> s[0] == x || x in s[1..];
    }
  }

  function RemoveAt<T>(s: seq<T>, i: nat): seq<T>
    requires i < |s|
  {
    s[..i] + s[i + 1..]
  }

  lemma CountSplit<T>(s: seq<T>, i: nat, x: T)
    requires i <= |s|
    ensures Count(s[..i], x) + Count(s[i..], x) == Count(s, x)
  {
    CountConcat(s[..i], s[i..], x);
    assert s[..i] + s[i..] == s;
  }

  lemma CountRemoveAt<T>(s: seq<T>, i: nat, x: T)
    requires i < |s|
    ensures Count(RemoveAt(s, i), x) + One(s[i] == x) == Count(s, x)
  {
    CountSplit(s, i, x);
    CountConcat(s[..i], s[i + 1..], x);
    assert s[i..][0] == s[i] && s[i..][1..] == s[i + 1..];
  }

  /** Taking out the first `y`, if there is one. */
  lemma CountBeforeAfter<T>(s: seq<T>, y: T, x: T)
    ensures Count(Before(s, y), x) + Count(After(s, y), x) + One(y in s && x == y) == Count(s, x)
  {
    if y in s {
      CountRemoveAt(s, IndexOf(s, y), x);
      CountConcat(Before(s, y), After(s, y), x);
    } else {
      SplitAt(s, y);
    }
  }
}
