/**
 The field the circuits are over, and binary decompositions in it: a bit string
 stands for its weighted sum modulo the field's order, which is one number only
 while the string is shorter than the modulus.
 */
module Goldilocks {

  // 2^64 - 2^32 + 1
  const P: nat := 0xFFFF_FFFF_0000_0001

  type Felt = x: int | 0 <= x < P

  function Pow2(n: nat): (p: nat)
    ensures p > 0
  {
    if n == 0 then 1 else 2 * Pow2(n - 1)
  }

  lemma {:induction false} Pow2Grows(m: nat, n: nat)
    requires m <= n
    ensures Pow2(m) <= Pow2(n)
  {
    if m < n {
      Pow2Grows(m, n - 1);
    }
  }

  lemma Pow2Of63()
    ensures Pow2(63) == 0x8000_0000_0000_0000 && Pow2(63) < P < Pow2(64)
  {
    assert Pow2(8) == 0x100;
    assert Pow2(16) == 0x1_0000;
    assert Pow2(24) == 0x100_0000;
    assert Pow2(32) == 0x1_0000_0000;
    assert Pow2(40) == 0x100_0000_0000;
    assert Pow2(48) == 0x1_0000_0000_0000;
    assert Pow2(56) == 0x100_0000_0000_0000;
  }

  predicate IsBit(x: int) {
    x == 0 || x == 1
  }

  predicate AreBits(bits: seq<int>) {
    forall i :: 0 <= i < |bits| ==> IsBit(bits[i])
  }

  // Least significant first.
  function Weigh(bits: seq<int>): int {
    if bits == [] then 0 else bits[0] + 2 * Weigh(bits[1..])
  }

  lemma {:induction false} WeighBound(bits: seq<int>)
    requires AreBits(bits)
    ensures 0 <= Weigh(bits) < Pow2(|bits|)
  {
    if bits != [] {
      WeighBound(bits[1..]);
    }
  }

  function Digits(x: nat, n: nat): (bits: seq<int>)
    ensures |bits| == n && AreBits(bits)
  {
    if n == 0 then [] else [x % 2] + Digits(x / 2, n - 1)
  }

  lemma {:induction false} DigitsWeigh(x: nat, n: nat)
    requires x < Pow2(n)
    ensures Weigh(Digits(x, n)) == x
  {
    if n > 0 {
      DigitsWeigh(x / 2, n - 1);
      assert Digits(x, n)[1..] == Digits(x / 2, n - 1);
    }
  }

  lemma {:induction false} WeighIsInjective(a: seq<int>, b: seq<int>)
    requires AreBits(a) && AreBits(b) && |a| == |b| && Weigh(a) == Weigh(b)
    ensures a == b
  {
    if a != [] {
      assert a[0] == b[0];
      WeighIsInjective(a[1..], b[1..]);
      assert a == [a[0]] + a[1..] && b == [b[0]] + b[1..];
    }
  }

  // Both strings decompose the same field element.
  predicate SameElement(a: seq<int>, b: seq<int>) {
    Weigh(a) % P == Weigh(b) % P
  }

  ghost predicate UniqueAt(n: nat) {
    forall a: seq<int>, b: seq<int> ::
      AreBits(a) && AreBits(b) && |a| == |b| == n && SameElement(a, b) ==> a == b
  }

  lemma ShortIsCanonical(bits: seq<int>)
    requires AreBits(bits) && |bits| <= 63
    ensures Weigh(bits) % P == Weigh(bits)
  {
    WeighBound(bits);
    Pow2Grows(|bits|, 63);
    Pow2Of63();
  }

  // The decomposition of an element is unique at 63 bits and no further: from
  // 64 bits on, zero is both the all-zero string and the digits of the modulus.
  lemma UniqueUpTo63(n: nat)
    ensures UniqueAt(n) <==> n <= 63
  {
    if n <= 63 {
      forall a: seq<int>, b: seq<int> | AreBits(a) && AreBits(b) && |a| == |b| == n && SameElement(a, b)
        ensures a == b
      {
        ShortIsCanonical(a);
        ShortIsCanonical(b);
        WeighIsInjective(a, b);
      }
    } else {
      Pow2Of63();
      Pow2Grows(64, n);
      DigitsWeigh(0, n);
      DigitsWeigh(P, n);
      assert SameElement(Digits(0, n), Digits(P, n));
      assert Weigh(Digits(0, n)) != Weigh(Digits(P, n));
    }
  }

  // ---------------------------------------------------------------------------
  // Comparing a constant with a bit string
  // ---------------------------------------------------------------------------

  function Flag(b: bool): Felt {
    if b then 1 else 0
  }

  // How a comparison of the bits above one position extends to that position.
  lemma OneMoreBit(left: nat, high: nat, bit: int)
    requires IsBit(bit)
    ensures left < bit + 2 * high <==> left / 2 < high || (left / 2 == high && left % 2 == 0 && bit == 1)
    ensures left == bit + 2 * high <==> left / 2 == high && left % 2 == bit
  {
  }

  // x >> i
  function Shift(x: nat, i: nat): nat {
    if i == 0 then x else Shift(x, i - 1) / 2
  }

  lemma {:induction false} ShiftBound(x: nat, n: nat, i: nat)
    requires x < Pow2(n) && i <= n
    ensures Shift(x, i) < Pow2(n - i)
  {
    if i > 0 {
      ShiftBound(x, n, i - 1);
    }
  }
}
