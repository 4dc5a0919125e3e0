/** The fixed-size ring of utils.h, one operation at a time. */
module Fifo {
  import opened Bits

  /** Remainders of neighbouring numbers. */
  lemma NextMod(x: nat, n: nat)
    requires n > 0
    ensures (x + 1) % n == if x % n + 1 == n then 0 else x % n + 1
  {
    if x % n + 1 == n {
      ModOf(x + 1, n, x / n + 1, 0);
    } else {
      ModOf(x + 1, n, x / n, x % n + 1);
    }
  }

  /** Within one lap, numbers with the same remainder are equal. */
  lemma SameSlot(i: nat, j: nat, n: nat)
    requires n > 0 && i % n == j % n && i <= j < i + n
    ensures i == j
  {
    ModOf(j, n, i / n, i % n + (j - i)) by {
      if i % n + (j - i) >= n {
        ModOf(j, n, i / n + 1, i % n + (j - i) - n);
        assert false;
      }
    }
  }

  /** The slot at distance i behind `output`. */
  function Slot(size: nat, output: nat, i: nat): (k: nat)
    requires output < size && i < size
    ensures k < size
  {
    if output + i < size then output + i else output + i - size
  }

  /** How many elements lie between the two indices. */
  function Used(size: nat, input: nat, output: nat): (n: nat)
    requires input < size && output < size
    ensures n < size
  {
    if output <= input then input - output else input + size - output
  }

  /** The elements between the two indices, oldest first. */
  ghost function Window<T>(b: seq<T>, input: nat, output: nat): (s: seq<T>)
    requires input < |b| && output < |b|
    ensures |s| == Used(|b|, input, output)
    ensures forall i {:trigger s[i]} :: 0 <= i < |s| ==> s[i] == b[Slot(|b|, output, i)]
  {
    seq(Used(|b|, input, output), i requires 0 <= i < Used(|b|, input, output) => b[Slot(|b|, output, i)])
  }

  function Next(size: nat, index: nat): nat
    requires index < size
  {
    if index + 1 == size then 0 else index + 1
  }

  /** The masked increment goes round the ring. */
  lemma MaskedNext(size: nat, index: nat)
    requires SizeAccepted(size) && index < size
    ensures And(index + 1, size - 1) == Next(size, index)
  {
    MaskIsMod(index + 1, size);
    ModOf(index, size, 0, index);
    NextMod(index, size);
  }

  lemma WindowPush<T>(b: seq<T>, input: nat, output: nat, elem: T)
    requires input < |b| && output < |b|
    ensures Next(|b|, input) == output <==> Used(|b|, input, output) == |b| - 1
    ensures Next(|b|, input) != output ==>
      Window(b[input := elem], Next(|b|, input), output) == Window(b, input, output) + [elem]
  {
  }

  lemma WindowPop<T>(b: seq<T>, input: nat, output: nat)
    requires input < |b| && output < |b|
    ensures input == output <==> Window(b, input, output) == []
    ensures input != output ==> Window(b, input, output) == [b[output]] + Window(b, input, Next(|b|, output))
  {
    if input != output {
      var w := Window(b, input, Next(|b|, output));
      forall i | 0 <= i < |w| ensures w[i] == Window(b, input, output)[i + 1] {}
    }
  }

  class Fifo<T(0)> {
    const SIZE: nat
    const buffer: array<T>
    var input: nat
    var output: nat

    ghost predicate Valid()
      reads this
    {
      SizeAccepted(SIZE) && buffer.Length == SIZE && input < SIZE && output < SIZE
    }

    /** The queued elements, oldest first. */
    ghost function Contents(): seq<T>
      reads this, buffer
      requires Valid()
    {
      Window(buffer[..], input, output)
    }

    constructor (size: nat)
      requires SizeAccepted(size)
      ensures Valid() && SIZE == size && Contents() == [] && fresh(buffer)
    {
      SIZE := size;
      buffer := new T[size];
      input, output := 0, 0;
    }

    /** A queue of capacity SIZE - 1: a push is refused exactly when that many elements are queued. */
    method Push(elem: T) returns (ok: bool)
      requires Valid()
      modifies this`input, buffer
      ensures Valid()
      ensures ok <==> |old(Contents())| < SIZE - 1
      ensures Contents() == if ok then old(Contents()) + [elem] else old(Contents())
    {
      MaskedNext(SIZE, input);
      WindowPush(buffer[..], input, output, elem);
      var next := And(input + 1, SIZE - 1);
      if next == output {
        return false;
      }
      ghost var b := buffer[..];
      buffer[input] := elem;
      assert buffer[..] == b[input := elem];
      input := next;
      return true;
    }

    /** Takes the oldest element; with nothing queued, the caller's variable keeps its value. */
    method Pop(opt: T) returns (r: T)
      requires Valid()
      modifies this`output
      ensures Valid()
      ensures old(Contents()) == [] ==> r == opt && Contents() == []
      ensures old(Contents()) != [] ==> [r] + Contents() == old(Contents())
    {
      WindowPop(buffer[..], input, output);
      if input == output {
        return opt;
      }
      r := buffer[output];
      MaskedNext(SIZE, output);
      output := And(output + 1, SIZE - 1);
    }
  }
}
