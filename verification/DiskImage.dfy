/** The file system as it lies on the disk: bitmap, inodes in the format of struct dinode
  (kernel/fs.h), and data, block by block, in the words in which the log moves blocks. */
module DiskImage {
  import opened DiskFormat
  import opened FileSystem
  import opened FileCode
  import opened FileOps
  import TL = TransactionLog

  // ---------------------------------------------------------------- blocks as words

  function Words(b: Block): TL.Block {
    seq(TL.WORDS, j requires 0 <= j < TL.WORDS => Entry(b, j))
  }

  lemma {:induction false} ValueInjective(a: seq<Byte>, b: seq<Byte>)
    requires |a| == |b| && Value(a) == Value(b)
    ensures a == b
  {
    if a != [] {
      FirstDigit(a[0], Value(a[1..]), b[0], Value(b[1..]));
      ValueInjective(a[1..], b[1..]);
      assert a == [a[0]] + a[1..] && b == [b[0]] + b[1..];
    }
  }

  lemma FirstDigit(x: Byte, v: nat, y: Byte, w: nat)
    requires x + 256 * v == y + 256 * w
    ensures x == y && v == w
  {
  }

  lemma WordsInjective(b: Block, c: Block)
    requires Words(b) == Words(c)
    ensures b == c
  {
    forall p: nat | p < BSIZE ensures b[p] == c[p] {
      var j := p / 4;
      assert Words(b)[j] == Words(c)[j];
      ValueInjective(b[4 * j..4 * j + 4], c[4 * j..4 * j + 4]);
      assert b[4 * j..4 * j + 4][p - 4 * j] == c[4 * j..4 * j + 4][p - 4 * j];
    }
  }

  // ---------------------------------------------------------------- inodes

  function AddrBytes(a: Addrs, k: nat): (d: seq<Byte>)
    requires k <= NDIRECT + 1
    ensures |d| == 4 * k
  {
    if k == 0 then [] else AddrBytes(a, k - 1) + Digits(a[k - 1], 4)
  }

  /** struct dinode; major and minor are 0. */
  function Dinode(n: Inode): (d: seq<Byte>)
    ensures |d| == 64
  {
    Digits(n.typ, 2) + Digits(0, 4) + Digits(n.nlink, 2) + Digits(n.size, 4) + AddrBytes(n.addrs, NDIRECT + 1)
  }

  /** The fields fit. */
  ghost predicate FieldsOk(n: Inode) {
    && n.typ < 0x1_0000 && n.nlink < 0x1_0000 && n.size < U32
    && forall k :: 0 <= k <= NDIRECT ==> n.addrs[k] < U32
  }

  lemma DigitsInjective(v: nat, w: nat, n: nat)
    requires v < Limit(n) && w < Limit(n) && Digits(v, n) == Digits(w, n)
    ensures v == w
  {
    DigitsRoundTrip(v, n);
    DigitsRoundTrip(w, n);
  }

  lemma Limits()
    ensures Limit(2) == 0x1_0000 && Limit(4) == U32
  {
    assert Limit(4) == 65536 * Limit(2);
  }

  lemma {:induction false} AddrsInjective(a: Addrs, b: Addrs, k: nat, l: nat)
    requires l < k <= NDIRECT + 1 && AddrBytes(a, k) == AddrBytes(b, k)
    requires forall j :: 0 <= j <= NDIRECT ==> a[j] < U32 && b[j] < U32
    ensures a[l] == b[l]
  {
    SplitEqual(AddrBytes(a, k - 1), Digits(a[k - 1], 4), AddrBytes(b, k - 1), Digits(b[k - 1], 4));
    if l == k - 1 {
      Limits();
      DigitsInjective(a[l], b[l], 4);
    } else {
      AddrsInjective(a, b, k - 1, l);
    }
  }

  lemma SplitEqual(a: seq<Byte>, c: seq<Byte>, b: seq<Byte>, d: seq<Byte>)
    requires |a| == |b| && a + c == b + d
    ensures a == b && c == d
  {
    assert a == (a + c)[..|a|] && b == (b + d)[..|b|] && c == (a + c)[|a|..] && d == (b + d)[|b|..];
  }

  lemma {:induction false} AddrAt(a: Addrs, k: nat, l: nat)
    requires l < k <= NDIRECT + 1
    ensures AddrBytes(a, k)[4 * l..4 * l + 4] == Digits(a[l], 4)
  {
    if l < k - 1 {
      AddrAt(a, k - 1, l);
      assert AddrBytes(a, k)[4 * l..4 * l + 4] == AddrBytes(a, k - 1)[4 * l..4 * l + 4];
    }
  }

  lemma DinodeParts(n: Inode)
    ensures Dinode(n)[0..2] == Digits(n.typ, 2) && Dinode(n)[2..6] == Digits(0, 4)
    ensures Dinode(n)[6..8] == Digits(n.nlink, 2) && Dinode(n)[8..12] == Digits(n.size, 4)
    ensures Dinode(n)[12..] == AddrBytes(n.addrs, NDIRECT + 1)
  {
  }

  /** Each field of struct dinode is at its place. */
  lemma DinodeFields(n: Inode, k: nat)
    requires FieldsOk(n) && k <= NDIRECT
    ensures Value(Dinode(n)[0..2]) == n.typ && Value(Dinode(n)[2..4]) == 0 && Value(Dinode(n)[4..6]) == 0
    ensures Value(Dinode(n)[6..8]) == n.nlink && Value(Dinode(n)[8..12]) == n.size
    ensures Value(Dinode(n)[12 + 4 * k..16 + 4 * k]) == n.addrs[k]
  {
    Limits();
    DinodeParts(n);
    DigitsRoundTrip(n.typ, 2);
    DigitsRoundTrip(n.nlink, 2);
    DigitsRoundTrip(n.size, 4);
    NoNumbers(n);
    AddrAt(n.addrs, NDIRECT + 1, k);
    DigitsRoundTrip(n.addrs[k], 4);
    assert Dinode(n)[12 + 4 * k..16 + 4 * k] == Dinode(n)[12..][4 * k..4 * k + 4];
  }

  lemma NoNumbers(n: Inode)
    ensures Value(Dinode(n)[2..4]) == 0 && Value(Dinode(n)[4..6]) == 0
  {
    DinodeParts(n);
    var d := Dinode(n)[2..6];
    assert Dinode(n)[2..4] == d[0..2] && Dinode(n)[4..6] == d[2..4];
    forall i | 0 <= i < 4 ensures Digits(0, 4)[i] == 0 { NoDigit(4, i); }
    ValueOfZeros(d[0..2]);
    ValueOfZeros(d[2..4]);
  }

  lemma {:induction false} NoDigit(n: nat, i: nat)
    requires i < n
    ensures Digits(0, n)[i] == 0
  {
    if i > 0 { NoDigit(n - 1, i - 1); }
  }

  lemma DinodeInjective(n: Inode, m: Inode)
    requires FieldsOk(n) && FieldsOk(m) && Dinode(n) == Dinode(m)
    ensures n == m
  {
    Limits();
    var t, z, l, s := Digits(n.typ, 2), Digits(0, 4), Digits(n.nlink, 2), Digits(n.size, 4);
    var t', l', s' := Digits(m.typ, 2), Digits(m.nlink, 2), Digits(m.size, 4);
    SplitEqual(t + z + l + s, AddrBytes(n.addrs, NDIRECT + 1), t' + z + l' + s', AddrBytes(m.addrs, NDIRECT + 1));
    SplitEqual(t + z + l, s, t' + z + l', s');
    SplitEqual(t + z, l, t' + z, l');
    SplitEqual(t, z, t', z);
    DigitsInjective(n.typ, m.typ, 2);
    DigitsInjective(n.nlink, m.nlink, 2);
    DigitsInjective(n.size, m.size, 4);
    forall k | 0 <= k <= NDIRECT ensures n.addrs[k] == m.addrs[k] {
      AddrsInjective(n.addrs, m.addrs, NDIRECT + 1, k);
    }
  }

  function InodeAt(inodes: seq<Inode>, i: nat): Inode {
    if i < |inodes| then inodes[i] else Inode(0, 0, 0, seq(NDIRECT + 1, _ => 0))
  }

  /** Sixteen inodes to a block. */
  function InodeBytes(inodes: seq<Inode>, q: nat): Block {
    seq(BSIZE, p requires 0 <= p < BSIZE => Dinode(InodeAt(inodes, 16 * q + p / 64))[p % 64])
  }

  /** Inode i is the (i mod 16)-th of the (i / 16)-th block of inodes. */
  lemma InodePlace(inodes: seq<Inode>, i: nat)
    requires i < |inodes|
    ensures 64 * (i % 16) + 64 <= BSIZE
    ensures InodeBytes(inodes, i / 16)[64 * (i % 16)..64 * (i % 16) + 64] == Dinode(inodes[i])
  {
    var k := i % 16;
    var b, d := InodeBytes(inodes, i / 16)[64 * k..64 * k + 64], Dinode(inodes[i]);
    forall o: nat | o < 64 ensures b[o] == d[o] {
      var p := 64 * k + o;
      assert p / 64 == k && p % 64 == o && 16 * (i / 16) + k == i;
      assert b[o] == InodeBytes(inodes, i / 16)[p];
    }
  }

  lemma InodeBytesInjective(inodes: seq<Inode>, other: seq<Inode>, q: nat, k: nat)
    requires InodeBytes(inodes, q) == InodeBytes(other, q) && k < 16
    ensures Dinode(InodeAt(inodes, 16 * q + k)) == Dinode(InodeAt(other, 16 * q + k))
  {
    var a, b := Dinode(InodeAt(inodes, 16 * q + k)), Dinode(InodeAt(other, 16 * q + k));
    forall o: nat | o < 64 ensures a[o] == b[o] {
      var p := 64 * k + o;
      assert p / 64 == k && p % 64 == o;
      assert InodeBytes(inodes, q)[p] == InodeBytes(other, q)[p];
    }
  }

  // ---------------------------------------------------------------- the disk

  function RawBlock(sb: Superblock, s: Fs, b: nat): Block {
    if sb.inodestart <= b < sb.bmapstart then InodeBytes(s.inodes, b - sb.inodestart)
    else if b < |s.blocks| then s.blocks[b] else Zero()
  }

  function ImageBlock(sb: Superblock, s: Fs, b: nat): TL.Block {
    Words(RawBlock(sb, s, b))
  }

  /** What the blocks outside the log hold. */
  ghost function Image(sb: Superblock, start: nat, s: Fs): map<nat, TL.Block> {
    map b | 0 <= b < sb.size && TL.Home(sb.size, start, b) :: ImageBlock(sb, s, b)
  }

  /** The log lies below the inodes. */
  predicate LogBelow(sb: Superblock, start: nat) {
    start + TL.LOGBLOCKS < sb.inodestart
  }

  lemma ImageAgrees(sb: Superblock, start: nat, s: Fs, t: Fs, b: nat)
    requires Image(sb, start, s) == Image(sb, start, t) && b < sb.size && TL.Home(sb.size, start, b)
    ensures RawBlock(sb, s, b) == RawBlock(sb, t, b)
  {
    assert Image(sb, start, s)[b] == Image(sb, start, t)[b];
    WordsInjective(RawBlock(sb, s, b), RawBlock(sb, t, b));
  }

  lemma SameInodeBlock(sb: Superblock, start: nat, s: Fs, t: Fs, q: nat)
    requires Image(sb, start, s) == Image(sb, start, t) && LogBelow(sb, start)
    requires sb.inodestart + q < sb.bmapstart
    ensures InodeBytes(s.inodes, q) == InodeBytes(t.inodes, q)
  {
    ImageAgrees(sb, start, s, t, sb.inodestart + q);
  }

  lemma SixteenPerBlock(sb: Superblock, i: nat, q: nat, k: nat)
    requires i < sb.ninodes && q == i / 16 && k == i % 16
    ensures sb.inodestart + q < sb.bmapstart && 16 * q + k == i && k < 16
  {
    assert q <= sb.ninodes / 16;
  }

  lemma SameInodes(sb: Superblock, start: nat, s: Fs, t: Fs, i: nat)
    requires Image(sb, start, s) == Image(sb, start, t) && LogBelow(sb, start)
    requires i < |s.inodes| == |t.inodes| == sb.ninodes && FieldsOk(s.inodes[i]) && FieldsOk(t.inodes[i])
    ensures s.inodes[i] == t.inodes[i]
  {
    var q, k := i / 16, i % 16;
    SixteenPerBlock(sb, i, q, k);
    SameInodeBlock(sb, start, s, t, q);
    InodeBytesInjective(s.inodes, t.inodes, q, k);
    DinodeInjective(s.inodes[i], t.inodes[i]);
  }

  lemma SameBlocks(sb: Superblock, start: nat, s: Fs, t: Fs, b: nat)
    requires Image(sb, start, s) == Image(sb, start, t) && LogBelow(sb, start)
    requires |s.blocks| == |t.blocks| == sb.size && sb.bmapstart <= b < sb.size
    ensures s.blocks[b] == t.blocks[b]
  {
    ImageAgrees(sb, start, s, t, b);
  }

  /** The disk determines the files: two file systems with the same image have the same inodes and
      the same contents. */
  lemma ImageDetermines(sb: Superblock, start: nat, s: Fs, t: Fs, i: nat)
    requires Image(sb, start, s) == Image(sb, start, t) && LogBelow(sb, start) && Core(sb, s) && Core(sb, t)
    requires forall j: nat :: j < sb.ninodes ==> FieldsOk(s.inodes[j]) && FieldsOk(t.inodes[j])
    ensures s.inodes == t.inodes && Contents(s, i) == Contents(t, i)
  {
    forall j: nat | j < sb.ninodes ensures s.inodes[j] == t.inodes[j] { SameInodes(sb, start, s, t, j); }
    if i < |s.inodes| {
      forall p: nat | p < s.inodes[i].size ensures Contents(s, i)[p] == Contents(t, i)[p] {
        SameFileBlock(sb, start, s, t, i, p / 1024);
      }
    }
  }

  lemma SameFileBlock(sb: Superblock, start: nat, s: Fs, t: Fs, i: nat, k: nat)
    requires Image(sb, start, s) == Image(sb, start, t) && LogBelow(sb, start) && Core(sb, s) && Core(sb, t)
    requires s.inodes == t.inodes
    ensures BlockOf(s.blocks, s.inodes, i, k) == BlockOf(t.blocks, t.inodes, i, k)
  {
    SameSlot(sb, start, s, t, Ind(i));
    SameSlot(sb, start, s, t, Data(i, k));
    var a := At(s.blocks, s.inodes, Data(i, k));
    if a != 0 {
      SlotInRange(sb, s, Data(i, k));
      SameBlocks(sb, start, s, t, a);
    }
  }

  lemma SameSlot(sb: Superblock, start: nat, s: Fs, t: Fs, x: Slot)
    requires Image(sb, start, s) == Image(sb, start, t) && LogBelow(sb, start) && Core(sb, s) && Core(sb, t)
    requires s.inodes == t.inodes
    ensures At(s.blocks, s.inodes, x) == At(t.blocks, t.inodes, x)
  {
    if x.i < |s.inodes| && s.inodes[x.i].addrs[NDIRECT] != 0 {
      IndInRange(sb, s.blocks, s.inodes, s.owner, x.i);
      SameBlocks(sb, start, s, t, s.inodes[x.i].addrs[NDIRECT]);
    }
  }

  // ---------------------------------------------------------------- what an operation changes

  /** An operation has taken s to t: what it changed it has logged, including the inode. */
  ghost predicate Operation(sb: Superblock, s: Fs, t: Fs, i: nat) {
    && OnlyLogged(sb, s.(logged := {}), t, i) && (InodeBlock(sb, i) in t.logged || t.inodes == s.inodes)
    && |s.inodes| == sb.ninodes && |s.blocks| == sb.size
  }

  lemma InodeBytesKept(sb: Superblock, s: Fs, t: Fs, i: nat, q: nat)
    requires OnlyLogged(sb, s.(logged := {}), t, i) && (q != i / 16 || t.inodes == s.inodes)
    ensures InodeBytes(t.inodes, q) == InodeBytes(s.inodes, q)
  {
    forall p: nat | p < BSIZE ensures InodeBytes(t.inodes, q)[p] == InodeBytes(s.inodes, q)[p] {
      var j := 16 * q + p / 64;
      assert j / 16 == q;
      if t.inodes != s.inodes { assert SameInode(s.(logged := {}), t, j); }
    }
  }

  /** The image changes in logged blocks only. */
  lemma ImageKept(sb: Superblock, s: Fs, t: Fs, i: nat, b: nat)
    requires Operation(sb, s, t, i) && b < sb.size && b !in t.logged
    ensures RawBlock(sb, t, b) == RawBlock(sb, s, b)
  {
    assert LoggedAt(sb, s.(logged := {}), t, b);
    if sb.inodestart <= b < sb.bmapstart {
      InodeBytesKept(sb, s, t, i, b - sb.inodestart);
    }
  }
}
