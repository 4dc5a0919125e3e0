/** Bitwise "and" on unbounded naturals, and what masking with SIZE - 1 means when SIZE is a power of two. */
module Bits {

  /** The range of `size_t`. */
  const WORD_SIZE: nat := 0x1_0000_0000_0000_0000

  function Pow2(k: nat): (p: nat)
    ensures p > 0
  {
    if k == 0 then 1 else 2 * Pow2(k - 1)
  }

  lemma {:induction false} Pow2Sum(j: nat, k: nat)
    ensures Pow2(j + k) == Pow2(j) * Pow2(k)
  {
    if j > 0 {
      Pow2Sum(j - 1, k);
      assert j + k - 1 == (j - 1) + k;
    }
  }

  function And(x: nat, y: nat): nat {
    if x == 0 || y == 0 then 0 else 2 * And(x / 2, y / 2) + (if x % 2 == 1 && y % 2 == 1 then 1 else 0)
  }

  function Or(x: nat, y: nat): nat {
    if x == 0 && y == 0 then 0 else 2 * Or(x / 2, y / 2) + (if x % 2 == 1 || y % 2 == 1 then 1 else 0)
  }

  lemma {:induction false} OrZero(y: nat)
    ensures Or(0, y) == y
  {
    if y > 0 {
      OrZero(y / 2);
    }
  }

  /** Where the bits of two numbers do not overlap, "or" adds them. */
  lemma {:induction false} OrAdds(x: nat, y: nat, k: nat)
    requires y < Pow2(k)
    ensures Or(x * Pow2(k), y) == x * Pow2(k) + y
  {
    if k == 0 {
      OrSelf(x);
    } else {
      var p := Pow2(k - 1);
      assert x * Pow2(k) == 2 * (x * p);
      if x * p == 0 && y == 0 {
      } else {
        OrAdds(x, y / 2, k - 1);
      }
    }
  }

  lemma {:induction false} OrSelf(x: nat)
    ensures Or(x, 0) == x
  {
    if x > 0 {
      OrSelf(x / 2);
    }
  }

  /** The test a ring buffer makes of its size. */
  predicate SizeAccepted(size: nat) {
    size > 1 && And(size, size - 1) == 0
  }

  lemma {:induction false} AndSelf(x: nat)
    ensures And(x, x) == x
  {
    if x > 0 {
      AndSelf(x / 2);
    }
  }

  /** Masking with 2^k - 1 is reduction modulo 2^k. */
  lemma {:induction false} AndMask(x: nat, k: nat)
    ensures And(x, Pow2(k) - 1) == x % Pow2(k)
  {
    if k > 0 && x > 0 {
      var p := Pow2(k - 1);
      AndMask(x / 2, k - 1);
      HalfMod(x, p);
      assert Pow2(k) == 2 * p;
    } else if k == 0 {
      assert Pow2(k) == 1;
    } else {
      ModOf(0, Pow2(k), 0, 0);
    }
  }

  lemma HalfMod(x: nat, p: nat)
    requires p > 0
    ensures x % (2 * p) == 2 * ((x / 2) % p) + x % 2
  {
    var q, r := (x / 2) / p, (x / 2) % p;
    assert x == (2 * p) * q + (2 * r + x % 2) by {
      assert x / 2 == p * q + r;
      assert 2 * (p * q) == (2 * p) * q;
    }
    ModOf(x, 2 * p, q, 2 * r + x % 2);
  }

  /** Quotient and remainder are unique. */
  lemma ModOf(x: int, n: nat, q: int, r: int)
    requires n > 0 && x == n * q + r && 0 <= r < n
    ensures x % n == r && x / n == q
  {
    var d := x / n - q;
    assert n * d == r - x % n by {
      assert x == n * (x / n) + x % n;
      assert n * (x / n) - n * q == n * d;
    }
  }

  /** The size test accepts exactly the powers of two above one. */
  lemma SizesAreThePowersOfTwo(size: nat)
    requires size > 1
    ensures SizeAccepted(size) <==> exists k :: Pow2(k) == size
  {
    if SizeAccepted(size) {
      var k := Exponent(size);
    }
    if k :| Pow2(k) == size {
      PowerAccepted(k);
    }
  }

  lemma {:induction false} Exponent(n: nat) returns (k: nat)
    requires n > 0 && And(n, n - 1) == 0
    ensures Pow2(k) == n
  {
    k := 0;
    if n % 2 == 1 {
      AndSelf(n / 2);
    } else {
      k := Exponent(n / 2);
      k := k + 1;
    }
  }

  lemma {:induction false} PowerAccepted(k: nat)
    ensures And(Pow2(k), Pow2(k) - 1) == 0
  {
    if k > 0 {
      PowerAccepted(k - 1);
    }
  }

  /** For an accepted size, the mask wraps an index that has just been incremented, and reduces any counter. */
  lemma MaskIsMod(x: nat, size: nat)
    requires SizeAccepted(size)
    ensures And(x, size - 1) == x % size
  {
    var k := Exponent(size);
    AndMask(x, k);
  }
}
