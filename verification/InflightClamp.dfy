/**
 The in-flight counter of `Io_context::run_once` with the workaround of config.h: every round adds what was submitted,
 raises the counter to the number of CQEs reaped when it is smaller, and subtracts them.
 */
module InflightClamp {

  datatype Round = Round(submitted: nat, done: nat)

  function Max(a: nat, b: nat): nat {
    if a < b then b else a
  }

  /** The counter after these rounds, started at zero. */
  function Clamped(rs: seq<Round>): nat {
    if rs == [] then 0
    else
      var r := rs[|rs| - 1];
      Max(Clamped(rs[..|rs| - 1]) + r.submitted, r.done) - r.done
  }

  /** What rounds k, k+1, ... submitted more than they reaped. */
  function Surplus(rs: seq<Round>, k: nat): int
    requires k <= |rs|
  {
    if k == |rs| then 0
    else Surplus(rs[..|rs| - 1], k) + rs[|rs| - 1].submitted - rs[|rs| - 1].done
  }

  /** No prefix of the rounds reaped more than it submitted. */
  ghost predicate NeverAhead(rs: seq<Round>) {
    forall j {:trigger rs[..j]} :: 0 <= j <= |rs| ==> Surplus(rs[..j], 0) >= 0
  }

  /**
   The closed form of the clamped counter: the largest surplus of any suffix of the rounds, the empty one included.
   */
  lemma {:induction false} LargestSuffix(rs: seq<Round>) returns (k: nat)
    ensures k <= |rs| && Clamped(rs) == Surplus(rs, k)
    ensures forall j :: 0 <= j <= |rs| ==> Clamped(rs) >= Surplus(rs, j)
  {
    if rs == [] {
      k := 0;
    } else {
      var n := |rs| - 1;
      k := LargestSuffix(rs[..n]);
      forall j | 0 <= j <= n ensures Surplus(rs, j) == Surplus(rs[..n], j) + rs[n].submitted - rs[n].done {}
      if Clamped(rs[..n]) + rs[n].submitted < rs[n].done {
        k := |rs|;
      }
    }
  }

  /** The counter never falls below what is really outstanding. */
  lemma NeverBelow(rs: seq<Round>)
    ensures Clamped(rs) >= Surplus(rs, 0)
  {
    var k := LargestSuffix(rs);
  }

  lemma PrefixOfPrefix(rs: seq<Round>, i: nat, j: nat)
    requires i <= j <= |rs|
    ensures rs[..j][..i] == rs[..i]
  {
  }

  lemma {:induction false} ExactWhileNeverAhead(rs: seq<Round>)
    requires NeverAhead(rs)
    ensures Clamped(rs) == Surplus(rs, 0)
  {
    if rs != [] {
      var n := |rs| - 1;
      forall j {:trigger rs[..n][..j]} | 0 <= j <= n ensures Surplus(rs[..n][..j], 0) >= 0 {
        PrefixOfPrefix(rs, j, n);
      }
      ExactWhileNeverAhead(rs[..n]);
      assert rs[..|rs|] == rs;
    }
  }

  /** It is exact after every round if and only if no prefix reaped more than it submitted. */
  lemma ExactIff(rs: seq<Round>)
    ensures (forall j {:trigger rs[..j]} :: 0 <= j <= |rs| ==> Clamped(rs[..j]) == Surplus(rs[..j], 0)) <==> NeverAhead(rs)
  {
    if NeverAhead(rs) {
      forall j {:trigger rs[..j]} | 0 <= j <= |rs| ensures Clamped(rs[..j]) == Surplus(rs[..j], 0) {
        forall i {:trigger rs[..j][..i]} | 0 <= i <= j ensures Surplus(rs[..j][..i], 0) >= 0 {
          PrefixOfPrefix(rs, i, j);
        }
        ExactWhileNeverAhead(rs[..j]);
      }
    }
  }

  // ---------------------------------------------------------------- the build without the workaround

  /** A round may leave CQEs on the ring, because nothing seems to be in flight, or fail the assertion. */
  datatype Plain = Counter(n: nat) | LeftBehind | AssertionFailed

  function PlainRound(c: nat, r: Round): Plain {
    if c + r.submitted == 0 then (if r.done == 0 then Counter(0) else LeftBehind)
    else if c + r.submitted < r.done then AssertionFailed
    else Counter(c + r.submitted - r.done)
  }

  function PlainRounds(rs: seq<Round>): Plain {
    if rs == [] then Counter(0)
    else match PlainRounds(rs[..|rs| - 1])
      case Counter(c) => PlainRound(c, rs[|rs| - 1])
      case other => other
  }

  lemma NeverAheadStep(rs: seq<Round>)
    requires rs != []
    ensures NeverAhead(rs) <==> NeverAhead(rs[..|rs| - 1]) && Surplus(rs, 0) >= 0
  {
    var n := |rs| - 1;
    assert rs[..|rs|] == rs;
    if NeverAhead(rs) {
      forall j {:trigger rs[..n][..j]} | 0 <= j <= n ensures Surplus(rs[..n][..j], 0) >= 0 {
        PrefixOfPrefix(rs, j, n);
      }
    }
    if NeverAhead(rs[..n]) && Surplus(rs, 0) >= 0 {
      forall j {:trigger rs[..j]} | 0 <= j <= |rs| ensures Surplus(rs[..j], 0) >= 0 {
        if j <= n {
          PrefixOfPrefix(rs, j, n);
        }
      }
    }
  }

  /**
   Without the workaround the same rounds go through, with the same counter, if and only if no prefix reaped more
   than it submitted; otherwise CQEs are left behind or the assertion fails.
   */
  lemma {:induction false} PlainAgreesIff(rs: seq<Round>)
    ensures PlainRounds(rs).Counter? <==> NeverAhead(rs)
    ensures PlainRounds(rs).Counter? ==> PlainRounds(rs).n == Clamped(rs) == Surplus(rs, 0)
  {
    assert rs[..|rs|] == rs;
    if rs != [] {
      var n := |rs| - 1;
      PlainAgreesIff(rs[..n]);
      NeverAheadStep(rs);
      NeverBelow(rs);
    } else {
      assert forall j {:trigger rs[..j]} :: 0 <= j <= |rs| ==> rs[..j] == rs;
    }
  }
}
