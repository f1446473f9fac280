/** What the operations of FileCode mean for whole files, one transaction of filewrite of
  kernel/file.c, and itrunc of kernel/fs.c. */
module FileOps {
  import opened DiskFormat
  import opened FileSystem
  import opened FileCode

  // ---------------------------------------------------------------- files as byte sequences

  /** A file as a flat sequence of bytes. */
  ghost function Contents(s: Fs, i: nat): seq<Byte> {
    if i < |s.inodes| then seq(s.inodes[i].size, p requires 0 <= p => ByteOf(s, i, p / 1024, p % 1024)) else []
  }

  lemma Position(p: nat)
    ensures p / 1024 * 1024 + p % 1024 == p
  {
  }

  /** readi returns a piece of the file. */
  lemma ReadsContents(s: Fs, i: nat, off: nat, bytes: seq<Byte>)
    requires Reads(s, i, off, bytes) && i < |s.inodes| && off + |bytes| <= s.inodes[i].size
    ensures bytes == Contents(s, i)[off..off + |bytes|]
  {
    forall p: nat | p < |bytes| ensures bytes[p] == Contents(s, i)[off + p] {
      Position(off + p);
      var k, o := (off + p) / 1024, (off + p) % 1024;
      assert Over(k * 1024 + o, off, bytes, ByteOf(s, i, k, o)) == ByteOf(s, i, k, o);
    }
  }

  lemma WrittenAt(s: Fs, t: Fs, i: nat, off: nat, bytes: seq<Byte>, j: nat, p: nat)
    requires Written(s, t, i, off, bytes)
    ensures ByteOf(t, j, p / 1024, p % 1024) ==
      if j == i then Over(p, off, bytes, ByteOf(s, j, p / 1024, p % 1024)) else ByteOf(s, j, p / 1024, p % 1024)
  {
    Position(p);
    assert Over(p / 1024 * 1024 + p % 1024, off, bytes, ByteOf(s, j, p / 1024, p % 1024))
        == Over(p, off, bytes, ByteOf(s, j, p / 1024, p % 1024));
  }

  /** The file after a write, from the file before it. */
  function Overwrite(c: seq<Byte>, off: nat, bytes: seq<Byte>): seq<Byte>
    requires off <= |c|
  {
    c[..off] + bytes + if off + |bytes| < |c| then c[off + |bytes|..] else []
  }

  lemma OverwriteAt(c: seq<Byte>, off: nat, bytes: seq<Byte>, p: nat)
    requires off <= |c| && p < |Overwrite(c, off, bytes)|
    ensures Overwrite(c, off, bytes)[p] == Over(p, off, bytes, if p < |c| then c[p] else 0)
  {
  }

  lemma OtherContents(s: Fs, t: Fs, i: nat, off: nat, bytes: seq<Byte>, j: nat)
    requires Written(s, t, i, off, bytes) && MetaExcept(s.inodes, t.inodes, i) && j != i
    ensures Contents(t, j) == Contents(s, j)
  {
    if j < |s.inodes| {
      forall p: nat | p < s.inodes[j].size ensures Contents(t, j)[p] == Contents(s, j)[p] {
        WrittenAt(s, t, i, off, bytes, j, p);
      }
    }
  }

  /** writei changes one file, by overwriting and appending. */
  lemma WrittenContents(s: Fs, t: Fs, i: nat, off: nat, bytes: seq<Byte>)
    requires Written(s, t, i, off, bytes) && MetaExcept(s.inodes, t.inodes, i) && i < |s.inodes|
    requires off <= s.inodes[i].size
    requires t.inodes[i].size == if off + |bytes| > s.inodes[i].size then off + |bytes| else s.inodes[i].size
    ensures Contents(t, i) == Overwrite(Contents(s, i), off, bytes)
    ensures forall j: nat :: j != i ==> Contents(t, j) == Contents(s, j)
  {
    forall p: nat | p < t.inodes[i].size ensures Contents(t, i)[p] == Overwrite(Contents(s, i), off, bytes)[p] {
      WrittenAt(s, t, i, off, bytes, i, p);
      OverwriteAt(Contents(s, i), off, bytes, p);
    }
    forall j: nat | j != i ensures Contents(t, j) == Contents(s, j) { OtherContents(s, t, i, off, bytes, j); }
  }

  /** What was written is what is read back. */
  lemma ReadBack(s: Fs, t: Fs, i: nat, off: nat, bytes: seq<Byte>, got: seq<Byte>)
    requires Written(s, t, i, off, bytes) && Reads(t, i, off, got) && |got| == |bytes|
    ensures got == bytes
  {
    forall p: nat | p < |bytes| ensures got[p] == bytes[p] {
      WrittenAt(s, t, i, off, bytes, i, off + p);
      Position(off + p);
      var k, o := (off + p) / 1024, (off + p) % 1024;
      assert Over(k * 1024 + o, off, got, ByteOf(t, i, k, o)) == ByteOf(t, i, k, o);
    }
  }

  // ---------------------------------------------------------------- filewrite

  /** A transaction of filewrite's, for at most three blocks' worth of bytes.  Whatever it logs
      fits in what begin_op reserves, as long as the free map has at most four blocks. */
  method WriteOp(f: FileSys, i: nat, off: nat, src: seq<Byte>) returns (r: int)
    requires Inv(f.sb, f.s) && i < |f.s.inodes| && f.s.inodes[i].typ != 0 && off < U32 && |src| <= 3072
    modifies f`s
    ensures Inv(f.sb, f.s) && |f.s.logged| <= f.sb.first - f.sb.bmapstart + 6
    ensures r < 0 <==> off > old(f.s.inodes)[i].size || off + |src| > 274432
    ensures r <= |src| && MetaExcept(old(f.s.inodes), f.s.inodes, i)
    ensures r < 0 ==> SameData(old(f.s), f.s) && f.s.inodes[i].size == old(f.s.inodes)[i].size
    ensures r >= 0 ==>
      && Written(old(f.s), f.s, i, off, src[..r])
      && f.s.inodes[i].size == if off + r > old(f.s.inodes)[i].size then off + r else old(f.s.inodes)[i].size
    ensures 0 <= r < |src| ==> Full(f.sb, f.s.blocks)
    ensures OnlyLogged(f.sb, old(f.s).(logged := {}), f.s, i)
    ensures InodeBlock(f.sb, i) in f.s.logged || f.s.inodes == old(f.s.inodes)
  {
    InvLogged(f.sb, f.s);
    f.s := f.s.(logged := {});
    ghost var t := f.s;
    ghost var touched;
    r, touched := f.Writei(i, off, src);
    SmallSpan(off, |src|);
    FootprintSize(f.sb, t, f.s, i, touched);
    if r >= 0 {
      WrittenFrom(old(f.s), t, f.s, i, off, src[..r]);
    }
  }

  // ---------------------------------------------------------------- itrunc

  /** itrunc has released the first n data blocks of file i. */
  ghost predicate Cut(s: Fs, t: Fs, i: nat, n: nat) {
    && |t.blocks| == |s.blocks| && SameMeta(s.inodes, t.inodes)
    && (forall y: Slot ::
      At(t.blocks, t.inodes, y) == if y.Data? && y.i == i && y.k < n then 0 else At(s.blocks, s.inodes, y))
    && (forall j: nat, k: nat ::
      BlockOf(t.blocks, t.inodes, j, k) == if j == i && k < n then Zero() else BlockOf(s.blocks, s.inodes, j, k))
  }

  lemma CutNext(s: Fs, t: Fs, u: Fs, i: nat, n: nat)
    requires Cut(s, t, i, n) && OneBlock(t, u, i, n, Zero()) && SameMeta(t.inodes, u.inodes) && |u.blocks| == |t.blocks|
    requires forall y: Slot :: At(u.blocks, u.inodes, y) == if y == Data(i, n) then 0 else At(t.blocks, t.inodes, y)
    ensures Cut(s, u, i, n + 1)
  {
    SameMetaTrans(s.inodes, t.inodes, u.inodes);
  }

  /** Nothing to release in an empty slot. */
  lemma CutSkip(s: Fs, t: Fs, i: nat, n: nat)
    requires Cut(s, t, i, n) && At(t.blocks, t.inodes, Data(i, n)) == 0
    ensures Cut(s, t, i, n + 1)
  {
  }

  lemma CutStart(s: Fs, i: nat)
    ensures Cut(s, s, i, 0)
  {
  }

  /** bfree: b is free and no other block changes that.  The panic "freeing free block" is
      excluded by requires. */
  method Bfree(f: FileSys, b: nat)
    requires |f.s.blocks| == f.sb.size && b < f.sb.size && Used(f.sb, f.s.blocks, b)
    modifies f`s
    ensures f.s == old(f.s).(blocks := Freed(f.sb, old(f.s.blocks), b), logged := old(f.s.logged) + {MapBlock(f.sb, b)})
    ensures forall c: nat :: Used(f.sb, f.s.blocks, c) <==> c != b && Used(f.sb, old(f.s.blocks), c)
  {
    MapBlockRange(f.sb, b);
    var m := MapBlock(f.sb, b);
    AndClearsBit(f.s.blocks[m], b % 8192);
    f.s := f.s.(blocks := f.s.blocks[m := AndBit(f.s.blocks[m], b % 8192)], logged := f.s.logged + {m});
    forall c: nat ensures Used(f.sb, f.s.blocks, c) <==> c != b && Used(f.sb, old(f.s.blocks), c) {
      UsedCleared(f.sb, old(f.s.blocks), b, c);
    }
  }

  /** Since s, itrunc has changed bitmap blocks only, which it has logged, and inode i. */
  ghost predicate Unmarked(sb: Superblock, s: Fs, t: Fs, i: nat) {
    OnlyLogged(sb, s, t, i) && t.logged <= s.logged + MapBlocks(sb)
  }

  lemma UnmarkedTrans(sb: Superblock, s: Fs, t: Fs, u: Fs, i: nat)
    requires Unmarked(sb, s, t, i) && Unmarked(sb, t, u, i)
    ensures Unmarked(sb, s, u, i)
  {
    OnlyLoggedTrans(sb, s, t, u, i);
  }

  lemma FreedUnmarked(sb: Superblock, s: Fs, b: nat, i: nat, t: Fs)
    requires |s.blocks| == sb.size && b < sb.size && t.blocks == Freed(sb, s.blocks, b)
    requires t.logged == s.logged + {MapBlock(sb, b)} && |t.inodes| == |s.inodes|
    requires forall j: nat :: j != i ==> SameInode(s, t, j)
    ensures Unmarked(sb, s, t, i)
  {
    MapBlockRange(sb, b);
    forall c: nat ensures LoggedAt(sb, s, t, c) {}
  }

  lemma UnmarkedSame(sb: Superblock, s: Fs, i: nat)
    ensures Unmarked(sb, s, s, i)
  {
    OnlyLoggedSame(sb, s, i);
  }

  /** The first loop of itrunc, for one direct block. */
  method FreeDirect(f: FileSys, i: nat, k: nat, ghost s0: Fs)
    requires Core(f.sb, f.s) && Cut(s0, f.s, i, k) && i < |f.s.inodes| && k < NDIRECT
    modifies f`s
    ensures Core(f.sb, f.s) && Cut(s0, f.s, i, k + 1) && |f.s.inodes| == |old(f.s.inodes)|
    ensures Unmarked(f.sb, old(f.s), f.s, i)
  {
    UnmarkedSame(f.sb, f.s, i);
    var a := f.s.inodes[i].addrs[k];
    if a != 0 {
      ghost var x := Data(i, k);
      DetachCore(f.sb, f.s, x);
      DetachData(f.sb, f.s, x);
      Bfree(f, a);
      f.s := f.s.(inodes := f.s.inodes[i := f.s.inodes[i].(addrs := f.s.inodes[i].addrs[k := 0])],
                  owner := f.s.owner - {a});
      FreedUnmarked(f.sb, old(f.s), a, i, f.s);
      CutNext(s0, old(f.s), f.s, i, k);
    } else {
      CutSkip(s0, f.s, i, k);
    }
  }

  /** The first loop of itrunc. */
  method FreeDirects(f: FileSys, i: nat)
    requires Core(f.sb, f.s) && i < |f.s.inodes|
    modifies f`s
    ensures Core(f.sb, f.s) && Cut(old(f.s), f.s, i, NDIRECT) && |f.s.inodes| == |old(f.s.inodes)|
    ensures Unmarked(f.sb, old(f.s), f.s, i)
  {
    var k := 0;
    CutStart(f.s, i);
    UnmarkedSame(f.sb, f.s, i);
    while k < NDIRECT
      invariant 0 <= k <= NDIRECT && Core(f.sb, f.s) && Cut(old(f.s), f.s, i, k) && |f.s.inodes| == |old(f.s.inodes)|
      invariant Unmarked(f.sb, old(f.s), f.s, i)
    {
      ghost var t := f.s;
      FreeDirect(f, i, k, old(f.s));
      UnmarkedTrans(f.sb, old(f.s), t, f.s, i);
      k := k + 1;
    }
  }

  /** itrunc frees the blocks listed in the indirect block a without clearing the list.  g is
      the state with the first j entries of the list cleared. */
  ghost predicate Shadow(s: Fs, g: Fs, a: nat, j: nat) {
    && a < |s.blocks| == |g.blocks| && g.inodes == s.inodes && g.owner == s.owner
    && (forall b: nat :: b < |s.blocks| && b != a ==> g.blocks[b] == s.blocks[b])
    && (forall l: nat :: l < NINDIRECT ==> Entry(g.blocks[a], l) == if l < j then 0 else Entry(s.blocks[a], l))
  }

  lemma ShadowStart(s: Fs, a: nat)
    requires a < |s.blocks|
    ensures Shadow(s, s, a, 0)
  {
  }

  lemma ShadowEntry(s: Fs, g: Fs, a: nat, j: nat)
    requires Shadow(s, g, a, j) && j < NINDIRECT
    ensures Entry(g.blocks[a], j) == Entry(s.blocks[a], j)
    ensures Entry(s.blocks[a], j) == 0 ==> Shadow(s, g, a, j + 1)
  {
  }

  lemma ShadowUsed(sb: Superblock, s: Fs, g: Fs, a: nat, j: nat, b: nat)
    requires Shadow(s, g, a, j) && sb.first <= a && b < sb.size && Used(sb, g.blocks, b)
    ensures Used(sb, s.blocks, b)
  {
    MapBlockRange(sb, b);
  }

  /** bfree does the same to both, and clearing the entry keeps up the shadow. */
  lemma ShadowNext(sb: Superblock, s: Fs, g: Fs, a: nat, j: nat, i: nat, b: nat)
    requires Shadow(s, g, a, j) && j < NINDIRECT && sb.first <= a && |s.blocks| == sb.size && b < sb.size
    requires i < |g.inodes| && g.inodes[i].addrs[NDIRECT] == a && At(g.blocks, g.inodes, Data(i, j + NDIRECT)) == b
    ensures Shadow(s.(blocks := Freed(sb, s.blocks, b), owner := s.owner - {b}), Detach(sb, g, Data(i, j + NDIRECT)), a,
      j + 1)
  {
    MapBlockRange(sb, b);
    var h := Detach(sb, g, Data(i, j + NDIRECT));
    forall l: nat | l < NINDIRECT ensures Entry(h.blocks[a], l) == if l < j + 1 then 0 else Entry(s.blocks[a], l) {
      EntryUpdate(g.blocks[a], j, 0, l);
    }
  }

  /** The second loop of itrunc, for one entry. */
  method FreeEntry(f: FileSys, i: nat, a: nat, j: nat, ghost s0: Fs, ghost g: Fs) returns (ghost h: Fs)
    requires |f.s.blocks| == f.sb.size && f.sb.first <= a && Shadow(f.s, g, a, j) && j < NINDIRECT
    requires Core(f.sb, g) && Cut(s0, g, i, j + NDIRECT) && i < |g.inodes| && g.inodes[i].addrs[NDIRECT] == a
    modifies f`s
    ensures |f.s.blocks| == f.sb.size && Shadow(f.s, h, a, j + 1)
    ensures Core(f.sb, h) && Cut(s0, h, i, j + 1 + NDIRECT) && h.inodes == g.inodes
    ensures Unmarked(f.sb, old(f.s), f.s, i)
  {
    UnmarkedSame(f.sb, f.s, i);
    var b := Entry(f.s.blocks[a], j);
    ShadowEntry(f.s, g, a, j);
    EntryIsSlot(f.sb, g, i, j + NDIRECT);
    if b != 0 {
      ghost var x := Data(i, j + NDIRECT);
      DetachCore(f.sb, g, x);
      DetachData(f.sb, g, x);
      ShadowUsed(f.sb, f.s, g, a, j, b);
      ShadowNext(f.sb, f.s, g, a, j, i, b);
      h := Detach(f.sb, g, x);
      CutNext(s0, g, h, i, j + NDIRECT);
      Bfree(f, b);
      f.s := f.s.(owner := f.s.owner - {b});
      FreedUnmarked(f.sb, old(f.s), b, i, f.s);
    } else {
      h := g;
      CutSkip(s0, g, i, j + NDIRECT);
    }
  }

  /** The second loop of itrunc. */
  method FreeEntries(f: FileSys, i: nat, a: nat, ghost s0: Fs) returns (ghost h: Fs)
    requires Core(f.sb, f.s) && Cut(s0, f.s, i, NDIRECT) && i < |f.s.inodes| && f.s.inodes[i].addrs[NDIRECT] == a
    requires f.sb.first <= a < f.sb.size
    modifies f`s
    ensures |f.s.blocks| == f.sb.size && Shadow(f.s, h, a, NINDIRECT)
    ensures Core(f.sb, h) && Cut(s0, h, i, MAXFILE) && h.inodes == old(f.s.inodes)
    ensures Unmarked(f.sb, old(f.s), f.s, i)
  {
    var j := 0;
    h := f.s;
    UnmarkedSame(f.sb, f.s, i);
    ShadowStart(f.s, a);
    while j < NINDIRECT
      invariant 0 <= j <= NINDIRECT && |f.s.blocks| == f.sb.size && Shadow(f.s, h, a, j)
      invariant Core(f.sb, h) && Cut(s0, h, i, j + NDIRECT) && h.inodes == old(f.s.inodes)
      invariant Unmarked(f.sb, old(f.s), f.s, i)
    {
      ghost var t := f.s;
      h := FreeEntry(f, i, a, j, s0, h);
      UnmarkedTrans(f.sb, old(f.s), t, f.s, i);
      j := j + 1;
    }
  }

  /** File i has lost all its blocks; nothing else has changed. */
  ghost predicate Emptied(s: Fs, t: Fs, i: nat) {
    && |t.blocks| == |s.blocks| && SameMeta(s.inodes, t.inodes)
    && (forall y: Slot :: At(t.blocks, t.inodes, y) == if y.i == i then 0 else At(s.blocks, s.inodes, y))
    && (forall j: nat, k: nat ::
      BlockOf(t.blocks, t.inodes, j, k) == if j == i then Zero() else BlockOf(s.blocks, s.inodes, j, k))
  }

  lemma CutAll(s: Fs, t: Fs, i: nat)
    requires Cut(s, t, i, NDIRECT) && At(t.blocks, t.inodes, Ind(i)) == 0
    ensures Emptied(s, t, i)
  {
    forall k: nat | k >= NDIRECT ensures At(t.blocks, t.inodes, Data(i, k)) == 0 {
      assert i < |t.inodes| ==> At(t.blocks, t.inodes, Ind(i)) == t.inodes[i].addrs[NDIRECT];
    }
    forall y: Slot ensures At(t.blocks, t.inodes, y) == if y.i == i then 0 else At(s.blocks, s.inodes, y) {
    }
    forall j: nat, k: nat
      ensures BlockOf(t.blocks, t.inodes, j, k) == if j == i then Zero() else BlockOf(s.blocks, s.inodes, j, k)
    {
      if j == i { assert At(t.blocks, t.inodes, Data(j, k)) == 0; }
    }
  }

  /** With its list cleared, the indirect block can go as well. */
  lemma CutIndirect(sb: Superblock, s: Fs, g: Fs, i: nat)
    requires Core(sb, g) && Cut(s, g, i, MAXFILE) && i < |g.inodes| && g.inodes[i].addrs[NDIRECT] != 0
    ensures CanPut(g.blocks, g.inodes, Ind(i)) && 0 < At(g.blocks, g.inodes, Ind(i)) < sb.size
    ensures Used(sb, g.blocks, At(g.blocks, g.inodes, Ind(i)))
    ensures Core(sb, Detach(sb, g, Ind(i))) && Emptied(s, Detach(sb, g, Ind(i)), i)
  {
    IndInRange(sb, g.blocks, g.inodes, g.owner, i);
    forall k: nat | k >= NDIRECT ensures At(g.blocks, g.inodes, Data(i, k)) == 0 {
    }
    DetachCore(sb, g, Ind(i));
    DetachData(sb, g, Ind(i));
    var t := Detach(sb, g, Ind(i));
    SameMetaTrans(s.inodes, g.inodes, t.inodes);
    forall j: nat, k: nat
      ensures BlockOf(t.blocks, t.inodes, j, k) == if j == i then Zero() else BlockOf(s.blocks, s.inodes, j, k)
    {
      assert BlockOf(t.blocks, t.inodes, j, k) == BlockOf(g.blocks, g.inodes, j, k);
      if j == i && k >= MAXFILE { assert At(t.blocks, t.inodes, Data(j, k)) == 0; }
    }
  }

  /** What is left in the freed indirect block does not matter. */
  lemma ShadowLast(sb: Superblock, s0: Fs, s: Fs, g: Fs, a: nat, i: nat, u: Fs)
    requires Shadow(s, g, a, NINDIRECT) && sb.first <= a < sb.size && |s.blocks| == sb.size && i < |g.inodes|
    requires g.inodes[i].addrs[NDIRECT] == a && Core(sb, Detach(sb, g, Ind(i))) && Emptied(s0, Detach(sb, g, Ind(i)), i)
    requires u.blocks == Freed(sb, s.blocks, a) && u.inodes == PutInodes(s.inodes, Ind(i), 0)
    requires u.owner == s.owner - {a}
    ensures Core(sb, u) && Emptied(s0, u, i)
  {
    MapBlockRange(sb, a);
    var h := Detach(sb, g, Ind(i));
    assert u.blocks == h.blocks[a := u.blocks[a]];
    LooseBlock(sb, h, a, u.blocks[a]);
    EmptiedSame(s0, h, u, i);
  }

  lemma EmptiedSame(s: Fs, t: Fs, u: Fs, i: nat)
    requires Emptied(s, t, i) && |u.blocks| == |t.blocks| && u.inodes == t.inodes
    requires forall y: Slot :: At(u.blocks, u.inodes, y) == At(t.blocks, t.inodes, y)
    requires forall j: nat, k: nat :: BlockOf(u.blocks, u.inodes, j, k) == BlockOf(t.blocks, t.inodes, j, k)
    ensures Emptied(s, u, i)
  {
  }

  /** itrunc's bfree of the indirect block a, whose list has been freed; g is the state with the
      list cleared. */
  method DropIndirect(f: FileSys, i: nat, a: nat, ghost s0: Fs, ghost g: Fs)
    requires |f.s.blocks| == f.sb.size && Shadow(f.s, g, a, NINDIRECT) && f.sb.first <= a < f.sb.size
    requires Core(f.sb, g) && Cut(s0, g, i, MAXFILE) && i < |g.inodes| && g.inodes[i].addrs[NDIRECT] == a
    modifies f`s
    ensures Core(f.sb, f.s) && Emptied(s0, f.s, i) && Unmarked(f.sb, old(f.s), f.s, i)
  {
    CutIndirect(f.sb, s0, g, i);
    ShadowUsed(f.sb, f.s, g, a, NINDIRECT, a);
    Bfree(f, a);
    f.s := f.s.(inodes := PutInodes(f.s.inodes, Ind(i), 0), owner := f.s.owner - {a});
    FreedUnmarked(f.sb, old(f.s), a, i, f.s);
    ShadowLast(f.sb, s0, old(f.s), g, a, i, f.s);
  }

  /** itrunc up to the point where the size is set. */
  method FreeAll(f: FileSys, i: nat)
    requires Core(f.sb, f.s) && i < |f.s.inodes|
    modifies f`s
    ensures Core(f.sb, f.s) && Emptied(old(f.s), f.s, i) && Unmarked(f.sb, old(f.s), f.s, i)
  {
    FreeDirects(f, i);
    var a := f.s.inodes[i].addrs[NDIRECT];
    if a != 0 {
      IndInRange(f.sb, f.s.blocks, f.s.inodes, f.s.owner, i);
      ghost var u := f.s;
      ghost var g := FreeEntries(f, i, a, old(f.s));
      ghost var t := f.s;
      DropIndirect(f, i, a, old(f.s), g);
      UnmarkedTrans(f.sb, old(f.s), u, t, i);
      UnmarkedTrans(f.sb, old(f.s), t, f.s, i);
    } else {
      CutAll(old(f.s), f.s, i);
    }
  }

  lemma EmptiedInv(sb: Superblock, s: Fs, t: Fs, i: nat)
    requires Inv(sb, s) && Core(sb, t) && Emptied(s, t, i) && i < |s.inodes|
    ensures Inv(sb, Resized(sb, t, i, 0))
  {
    var u := Resized(sb, t, i, 0);
    ResizedAt(sb, t, i, 0);
    OwnedSame(sb, t.blocks, t.inodes, t.owner, t.blocks, u.inodes);
    forall j: nat ensures SizeOk(u, j) { assert SizeOk(s, j); }
    forall j: nat, k: nat | j < |u.inodes| && k * 1024 < u.inodes[j].size
      ensures At(u.blocks, u.inodes, Data(j, k)) != 0
    {
      assert At(s.blocks, s.inodes, Data(j, k)) != 0;
    }
    forall x: Slot | x.i < |u.inodes| && u.inodes[x.i].typ == 0 ensures At(u.blocks, u.inodes, x) == 0 {
    }
  }

  /** The blocks that have become free are exactly those of file i. */
  lemma EmptiedOwners(sb: Superblock, s: Fs, t: Fs, i: nat)
    requires Core(sb, s) && Core(sb, t) && Emptied(s, t, i)
    ensures forall b: nat :: b in t.owner <==> b in s.owner && s.owner[b].i != i
    ensures forall b: nat :: b in t.owner ==> t.owner[b] == s.owner[b]
    ensures forall b: nat :: b < sb.size ==>
      (Used(sb, t.blocks, b) <==> Used(sb, s.blocks, b) && !(b in s.owner && s.owner[b].i == i))
  {
    forall b: nat ensures b in t.owner <==> b in s.owner && s.owner[b].i != i
      ensures b in t.owner ==> t.owner[b] == s.owner[b]
    {
      if b in t.owner { assert At(s.blocks, s.inodes, t.owner[b]) == b; }
      if b in s.owner && s.owner[b].i != i { assert At(t.blocks, t.inodes, s.owner[b]) == b; }
    }
  }

  /** itrunc: file i is empty, its blocks and no others are free, and no other file has
      changed. */
  method Itrunc(f: FileSys, i: nat)
    requires Inv(f.sb, f.s) && i < |f.s.inodes|
    modifies f`s
    ensures Inv(f.sb, f.s) && MetaExcept(old(f.s.inodes), f.s.inodes, i) && f.s.inodes[i].size == 0
    ensures forall j: nat, k: nat :: j != i ==>
      BlockOf(f.s.blocks, f.s.inodes, j, k) == BlockOf(old(f.s.blocks), old(f.s.inodes), j, k)
    ensures forall y: Slot ::
      At(f.s.blocks, f.s.inodes, y) == if y.i == i then 0 else At(old(f.s.blocks), old(f.s.inodes), y)
    ensures forall b: nat :: b < f.sb.size ==>
      (Used(f.sb, f.s.blocks, b) <==>
        Used(f.sb, old(f.s.blocks), b) && !(b in old(f.s.owner) && old(f.s.owner)[b].i == i))
    ensures OnlyLogged(f.sb, old(f.s), f.s, i)
    ensures f.s.logged <= old(f.s.logged) + MapBlocks(f.sb) + {InodeBlock(f.sb, i)} && InodeBlock(f.sb, i) in f.s.logged
  {
    FreeAll(f, i);
    ResizedLogged(f.sb, f.s, i, 0);
    OnlyLoggedTrans(f.sb, old(f.s), f.s, Resized(f.sb, f.s, i, 0), i);
    EmptiedInv(f.sb, old(f.s), f.s, i);
    EmptiedOwners(f.sb, old(f.s), f.s, i);
    ResizedAt(f.sb, f.s, i, 0);
    MetaResized(f.sb, old(f.s.inodes), f.s, i, 0);
    f.s := Resized(f.sb, f.s, i, 0);
  }
}
