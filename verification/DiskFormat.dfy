/** The bytes of disk blocks: the bits of the free map and the block numbers of an indirect
  block (kernel/fs.h, and the accesses to bp->data in kernel/fs.c). */
module DiskFormat {
  import opened Bits

  /** BSIZE, BPB (bits per block) and NINDIRECT (block numbers per block). */
  const BSIZE: nat := 1024
  const BPB: nat := 8192
  const NINDIRECT: nat := 256

  type Byte = n: nat | n < 256
  type Block = b: seq<Byte> | |b| == BSIZE witness seq(BSIZE, _ => 0)

  function Zero(): Block {
    seq(BSIZE, _ => 0)
  }

  // ---------------------------------------------------------------- the bits of a block

  predicate Bit(b: Block, i: nat)
    requires i < BPB
  {
    Odd(b[i / 8], i % 8)
  }

  function SetBit(b: Block, i: nat, v: bool): Block
    requires i < BPB
  {
    FlipByte(b[i / 8], i % 8, v);
    b[i / 8 := Flip(b[i / 8], i % 8, v)]
  }

  lemma SameBit(i: nat, j: nat)
    requires i / 8 == j / 8 && i % 8 == j % 8
    ensures i == j
  {
  }

  /** Each bit can be set and cleared on its own. */
  lemma BitSet(b: Block, i: nat, v: bool, j: nat)
    requires i < BPB && j < BPB
    ensures Bit(SetBit(b, i, v), j) == if j == i then v else Bit(b, j)
  {
    FlipByte(b[i / 8], i % 8, v);
    if i / 8 == j / 8 {
      FlipBits(b[i / 8], i % 8, v, j % 8);
      if i % 8 == j % 8 { SameBit(i, j); }
    }
  }

  // The three accesses of fs.c to a bit of a block: balloc's test, its or, and bfree's and.

  predicate TestBit(b: Block, i: nat)
    requires i < BPB
  {
    ToBits(b[i / 8]) & (1 as bv8 << (i % 8)) != 0
  }

  function OrBit(b: Block, i: nat): Block
    requires i < BPB
  {
    b[i / 8 := (ToBits(b[i / 8]) | (1 as bv8 << (i % 8))) as Byte]
  }

  function AndBit(b: Block, i: nat): Block
    requires i < BPB
  {
    b[i / 8 := (ToBits(b[i / 8]) & !(1 as bv8 << (i % 8))) as Byte]
  }

  lemma TestIsBit(b: Block, i: nat)
    requires i < BPB
    ensures TestBit(b, i) <==> Bit(b, i)
  {
    ToBitsMask(b[i / 8], i % 8);
    MaskIsShift(i % 8);
  }

  lemma OrSetsBit(b: Block, i: nat)
    requires i < BPB
    ensures OrBit(b, i) == SetBit(b, i, true)
  {
    ByteSet(b[i / 8], i % 8);
    MaskIsShift(i % 8);
  }

  lemma AndClearsBit(b: Block, i: nat)
    requires i < BPB
    ensures AndBit(b, i) == SetBit(b, i, false)
  {
    ByteCleared(b[i / 8], i % 8);
    MaskIsShift(i % 8);
  }

  // ---------------------------------------------------------------- block numbers

  const U32: nat := 0x1_0000_0000

  /** Little-endian numbers. */
  function Value(b: seq<Byte>): nat {
    if b == [] then 0 else b[0] + 256 * Value(b[1..])
  }

  function Digits(v: nat, n: nat): (d: seq<Byte>)
    ensures |d| == n
  {
    if n == 0 then [] else [v % 256] + Digits(v / 256, n - 1)
  }

  /** 256 to the n-th. */
  function Limit(n: nat): nat {
    if n == 0 then 1 else 256 * Limit(n - 1)
  }

  lemma {:induction false} DigitsRoundTrip(v: nat, n: nat)
    requires v < Limit(n)
    ensures Value(Digits(v, n)) == v
  {
    if n > 0 {
      assert v / 256 < Limit(n - 1);
      DigitsRoundTrip(v / 256, n - 1);
      assert Digits(v, n)[1..] == Digits(v / 256, n - 1);
    }
  }

  /** The bytes of a number are in little-endian order. */
  lemma LittleEndian(b: seq<Byte>)
    ensures |b| == 2 ==> Value(b) == b[0] + 256 * (b[1] as int)
    ensures |b| == 4 ==>
      Value(b) == b[0] + 256 * (b[1] as int) + 0x1_0000 * (b[2] as int) + 0x100_0000 * (b[3] as int)
  {
    if |b| == 2 {
      assert Value(b[1..]) == b[1] + 256 * Value(b[1..][1..]);
    } else if |b| == 4 {
      assert b[1..][1..] == b[2..];
      LittleEndian(b[2..]);
      assert Value(b[1..]) == b[1] + 256 * Value(b[2..]);
    }
  }

  /** The j-th word of a block. */
  function Entry(b: Block, j: nat): nat
    requires j < NINDIRECT
  {
    Value(b[4 * j..4 * j + 4])
  }

  function PutEntry(b: Block, j: nat, v: nat): Block
    requires j < NINDIRECT
  {
    b[..4 * j] + Digits(v, 4) + b[4 * j + 4..]
  }

  lemma OtherWord(b: Block, j: nat, d: seq<Byte>, k: nat)
    requires j < NINDIRECT && k < NINDIRECT && |d| == 4
    ensures var t := b[..4 * j] + d + b[4 * j + 4..]; t[4 * k..4 * k + 4] == if k == j then d else b[4 * k..4 * k + 4]
  {
  }

  /** A block number is read back as it was stored, and the others are not disturbed. */
  lemma EntryUpdate(b: Block, j: nat, v: nat, k: nat)
    requires j < NINDIRECT && v < U32 && k < NINDIRECT
    ensures Entry(PutEntry(b, j, v), k) == if k == j then v else Entry(b, k)
  {
    assert Limit(4) == 65536 * Limit(2) == U32;
    DigitsRoundTrip(v, 4);
    OtherWord(b, j, Digits(v, 4), k);
  }

  lemma {:induction false} ValueOfZeros(b: seq<Byte>)
    requires forall i :: 0 <= i < |b| ==> b[i] == 0
    ensures Value(b) == 0
  {
    if b != [] { ValueOfZeros(b[1..]); }
  }

  lemma NoEntry(b: Block, j: nat)
    requires j < NINDIRECT && b == Zero()
    ensures Entry(b, j) == 0
  {
    ValueOfZeros(b[4 * j..4 * j + 4]);
  }
}
