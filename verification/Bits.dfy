/** The bits of a byte, and what the masks of kernel/fs.c do to them. */
module Bits {
  /** Bit i of x. */
  predicate Odd(x: nat, i: nat) {
    if i == 0 then x % 2 == 1 else Odd(x / 2, i - 1)
  }

  /** x with bit i set to v. */
  function Flip(x: nat, i: nat, v: bool): nat {
    if i == 0 then x - x % 2 + (if v then 1 else 0) else 2 * Flip(x / 2, i - 1, v) + x % 2
  }

  lemma {:induction false} FlipBits(x: nat, i: nat, v: bool, j: nat)
    ensures Odd(Flip(x, i, v), j) == if j == i then v else Odd(x, j)
  {
    if i > 0 && j > 0 {
      FlipBits(x / 2, i - 1, v, j - 1);
      assert Flip(x, i, v) / 2 == Flip(x / 2, i - 1, v);
    } else if j > 0 {
      assert Flip(x, i, v) / 2 == x / 2;
    }
  }

  function Power(n: nat): nat {
    if n == 0 then 1 else 2 * Power(n - 1)
  }

  lemma HalfSmall(x: nat, p: nat)
    requires x < 2 * p
    ensures x / 2 < p && x - x % 2 + 1 < 2 * p
  {
  }

  lemma {:induction false} FlipSmall(x: nat, i: nat, v: bool, n: nat)
    requires x < Power(n) && i < n
    ensures Flip(x, i, v) < Power(n)
  {
    assert Power(n) == 2 * Power(n - 1);
    HalfSmall(x, Power(n - 1));
    if i > 0 { FlipSmall(x / 2, i - 1, v, n - 1); }
  }

  lemma FlipByte(x: nat, i: nat, v: bool)
    requires x < 256 && i < 8
    ensures Flip(x, i, v) < 256
  {
    PowerOfEight();
    FlipSmall(x, i, v, 8);
  }

  // 1 << i, and what & and | with it do

  function Mask(i: nat): bv8 {
    if i == 0 then 1 else if i == 1 then 2 else if i == 2 then 4 else if i == 3 then 8
    else if i == 4 then 16 else if i == 5 then 32 else if i == 6 then 64 else 128
  }

  /** The number that a byte stands for in binary. */
  function Val(b: bv8): nat {
    if b == 0 then 0 else (if b & 1 != 0 then 1 else 0) + 2 * Val(b >> 1)
  }

  lemma Halves(b: bv8)
    ensures b as nat == (if b & 1 != 0 then 1 else 0) + 2 * ((b >> 1) as nat)
  {
  }

  lemma {:induction false} ValIsConversion(b: bv8)
    ensures Val(b) == b as nat
  {
    if b != 0 {
      Halves(b);
      ValIsConversion(b >> 1);
    }
  }

  lemma ValHalves(b: bv8)
    ensures Val(b) / 2 == Val(b >> 1) && (Val(b) % 2 == 1 <==> b & 1 != 0)
  {
  }

  lemma MaskHalves(b: bv8, i: nat)
    requires 0 < i < 8
    ensures (b & Mask(i) != 0) == ((b >> 1) & Mask(i - 1) != 0)
    ensures (b | Mask(i)) >> 1 == (b >> 1) | Mask(i - 1) && (b | Mask(i)) & 1 == b & 1
    ensures (b & !Mask(i)) >> 1 == (b >> 1) & !Mask(i - 1) && (b & !Mask(i)) & 1 == b & 1
  {
  }

  lemma FlipHalves(x: nat, y: nat, i: nat, v: bool)
    requires i > 0 && y / 2 == Flip(x / 2, i - 1, v) && y % 2 == x % 2
    ensures y == Flip(x, i, v)
  {
  }

  lemma FlipLow(x: nat, y: nat, v: bool)
    requires y / 2 == x / 2 && y % 2 == if v then 1 else 0
    ensures y == Flip(x, 0, v)
  {
  }

  /** fs.c's masks work on single bits. */
  lemma {:induction false} MaskTests(b: bv8, i: nat)
    requires i < 8
    ensures b & Mask(i) != 0 <==> Odd(Val(b), i)
  {
    ValHalves(b);
    if i > 0 {
      MaskHalves(b, i);
      MaskTests(b >> 1, i - 1);
    }
  }

  /** c is b with bit i set to v. */
  predicate Differ(b: bv8, c: bv8, i: nat, v: bool) {
    if i == 0 then c >> 1 == b >> 1 && (c & 1 != 0) == v else c & 1 == b & 1 && Differ(b >> 1, c >> 1, i - 1, v)
  }

  lemma {:induction false} DifferVal(b: bv8, c: bv8, i: nat, v: bool)
    requires Differ(b, c, i, v)
    ensures Val(c) == Flip(Val(b), i, v)
  {
    ValHalves(b);
    ValHalves(c);
    if i == 0 {
      FlipLow(Val(b), Val(c), v);
    } else {
      DifferVal(b >> 1, c >> 1, i - 1, v);
      FlipHalves(Val(b), Val(c), i, v);
    }
  }

  lemma {:induction false} MaskDiffers(b: bv8, i: nat)
    requires i < 8
    ensures Differ(b, b | Mask(i), i, true) && Differ(b, b & !Mask(i), i, false)
  {
    if i == 0 {
      MaskLow(b);
    } else {
      MaskHalves(b, i);
      MaskDiffers(b >> 1, i - 1);
    }
  }

  lemma MaskSets(b: bv8, i: nat)
    requires i < 8
    ensures Val(b | Mask(i)) == Flip(Val(b), i, true) && Val(b & !Mask(i)) == Flip(Val(b), i, false)
  {
    MaskDiffers(b, i);
    DifferVal(b, b | Mask(i), i, true);
    DifferVal(b, b & !Mask(i), i, false);
  }

  lemma MaskLow(b: bv8)
    ensures (b | 1) >> 1 == b >> 1 && (b | 1) & 1 == 1 && (b & !1) >> 1 == b >> 1 && (b & !1) & 1 == 0
  {
  }

  lemma MaskIsShift(i: nat)
    requires i < 8
    ensures Mask(i) == 1 as bv8 << i
  {
  }

  function Assemble(b0: bool, b1: bool, b2: bool, b3: bool, b4: bool, b5: bool, b6: bool, b7: bool): bv8 {
    (if b0 then 1 else 0) | (if b1 then 2 else 0) | (if b2 then 4 else 0) | (if b3 then 8 else 0)
    | (if b4 then 16 else 0) | (if b5 then 32 else 0) | (if b6 then 64 else 0) | (if b7 then 128 else 0)
  }

  lemma AssembleMask(b0: bool, b1: bool, b2: bool, b3: bool, b4: bool, b5: bool, b6: bool, b7: bool)
    ensures var b := Assemble(b0, b1, b2, b3, b4, b5, b6, b7);
      && (b & 1 != 0) == b0 && (b & 2 != 0) == b1 && (b & 4 != 0) == b2 && (b & 8 != 0) == b3
      && (b & 16 != 0) == b4 && (b & 32 != 0) == b5 && (b & 64 != 0) == b6 && (b & 128 != 0) == b7
  {
  }

  /** The byte with the binary digits of x. */
  function ToBits(x: nat): bv8 {
    Assemble(Odd(x, 0), Odd(x, 1), Odd(x, 2), Odd(x, 3), Odd(x, 4), Odd(x, 5), Odd(x, 6), Odd(x, 7))
  }

  lemma ToBitsMask(x: nat, i: nat)
    requires i < 8
    ensures ToBits(x) & Mask(i) != 0 <==> Odd(x, i)
  {
    AssembleMask(Odd(x, 0), Odd(x, 1), Odd(x, 2), Odd(x, 3), Odd(x, 4), Odd(x, 5), Odd(x, 6), Odd(x, 7));
  }

  lemma {:induction false} SameBits(x: nat, y: nat, n: nat)
    requires x < Power(n) && y < Power(n) && forall i: nat :: i < n ==> Odd(x, i) == Odd(y, i)
    ensures x == y
  {
    if n > 0 {
      HalfSmall(x, Power(n - 1));
      HalfSmall(y, Power(n - 1));
      forall i: nat | i < n - 1 ensures Odd(x / 2, i) == Odd(y / 2, i) {
        assert Odd(x, i + 1) == Odd(y, i + 1);
      }
      SameBits(x / 2, y / 2, n - 1);
      assert Odd(x, 0) == Odd(y, 0);
    }
  }

  lemma PowerOfEight()
    ensures Power(8) == 256
  {
    assert Power(8) == 2 * 2 * Power(6) == 16 * Power(4) == 64 * Power(2) == 256;
  }

  /** As a number it is x. */
  lemma ToBitsIs(x: nat)
    requires x < 256
    ensures Val(ToBits(x)) == x && ToBits(x) as nat == x
  {
    var b := ToBits(x);
    ValIsConversion(b);
    PowerOfEight();
    forall i: nat | i < 8 ensures Odd(Val(b), i) == Odd(x, i) {
      MaskTests(b, i);
      ToBitsMask(x, i);
    }
    SameBits(Val(b), x, 8);
  }

  lemma ByteSet(x: nat, i: nat)
    requires x < 256 && i < 8
    ensures (ToBits(x) | Mask(i)) as nat == Flip(x, i, true)
  {
    ToBitsIs(x);
    MaskSets(ToBits(x), i);
    ValIsConversion(ToBits(x) | Mask(i));
  }

  lemma ByteCleared(x: nat, i: nat)
    requires x < 256 && i < 8
    ensures (ToBits(x) & !Mask(i)) as nat == Flip(x, i, false)
  {
    ToBitsIs(x);
    MaskSets(ToBits(x), i);
    ValIsConversion(ToBits(x) & !Mask(i));
  }
}
