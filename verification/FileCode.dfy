/** balloc, bfree, bmap, itrunc, readi and writei of kernel/fs.c, as code over the state of
  FileSystem.  Sources and targets of copies are kernel buffers, so that copying succeeds. */
module FileCode {
  import opened Basics
  import opened DiskFormat
  import opened FileSystem

  // ---------------------------------------------------------------- balloc's search

  lemma InMapBlock(sb: Superblock, blocks: seq<Block>, q: nat, bi: nat)
    requires bi < BPB && sb.bmapstart + q < |blocks|
    ensures Used(sb, blocks, 8192 * q + bi) <==> Bit(blocks[sb.bmapstart + q], bi)
  {
    assert (8192 * q + bi) / 8192 == q && (8192 * q + bi) % 8192 == bi;
  }

  /** The inner loop: the first free block that the q-th block of the free map covers. */
  method ScanMap(sb: Superblock, blocks: seq<Block>, q: nat) returns (r: Option<nat>)
    requires |blocks| == sb.size && 8192 * q < sb.size
    ensures r == None ==> forall c: nat :: 8192 * q <= c < 8192 * (q + 1) && c < sb.size ==> Used(sb, blocks, c)
    ensures r.Some? ==> 8192 * q <= r.value < sb.size && !Used(sb, blocks, r.value)
    ensures r.Some? ==> forall c: nat :: 8192 * q <= c < r.value ==> Used(sb, blocks, c)
  {
    MapBlockRange(sb, 8192 * q);
    var bp := blocks[sb.bmapstart + q];
    var bi := 0;
    while bi < BPB && 8192 * q + bi < sb.size
      invariant bi <= BPB && forall c: nat :: 8192 * q <= c < 8192 * q + bi ==> Used(sb, blocks, c)
    {
      InMapBlock(sb, blocks, q, bi);
      TestIsBit(bp, bi);
      if !TestBit(bp, bi) {
        return Some(8192 * q + bi);
      }
      bi := bi + 1;
    }
    r := None;
  }

  /** balloc's loops: the first free block, if there is one. */
  method FindFree(sb: Superblock, blocks: seq<Block>) returns (r: Option<nat>)
    requires |blocks| == sb.size
    ensures r == None ==> forall c: nat :: c < sb.size ==> Used(sb, blocks, c)
    ensures r.Some? ==> r.value < sb.size && !Used(sb, blocks, r.value)
    ensures r.Some? ==> forall c: nat :: c < r.value ==> Used(sb, blocks, c)
  {
    var q := 0;
    while 8192 * q < sb.size
      invariant 0 <= q && forall c: nat :: c < 8192 * q && c < sb.size ==> Used(sb, blocks, c)
      decreases sb.size - 8192 * q
    {
      r := ScanMap(sb, blocks, q);
      if r.Some? {
        return;
      }
      q := q + 1;
    }
    r := None;
  }

  // ---------------------------------------------------------------- frames

  function Range(lo: nat, hi: nat): (r: set<nat>)
    ensures forall b: nat :: b in r <==> lo <= b < hi
    ensures |r| == if lo < hi then hi - lo else 0
    decreases hi - lo
  {
    if lo < hi then {lo} + Range(lo + 1, hi) else {}
  }

  /** The bitmap blocks. */
  function MapBlocks(sb: Superblock): set<nat> {
    Range(sb.bmapstart, sb.first)
  }

  /** bmap for block k of file i may fill these two slots and is otherwise not noticed. */
  ghost predicate Grew(s: Fs, t: Fs, i: nat, k: nat) {
    && |t.blocks| == |s.blocks| && SameData(s, t) && SameMeta(s.inodes, t.inodes)
    && (forall y: Slot :: At(s.blocks, s.inodes, y) != 0 || (y != Data(i, k) && y != Ind(i)) ==>
      At(t.blocks, t.inodes, y) == At(s.blocks, s.inodes, y))
  }

  lemma SameMetaTrans(n: seq<Inode>, m: seq<Inode>, l: seq<Inode>)
    requires SameMeta(n, m) && SameMeta(m, l)
    ensures SameMeta(n, l)
  {
  }

  lemma GrewTrans(s: Fs, t: Fs, u: Fs, i: nat, k: nat)
    requires Grew(s, t, i, k) && Grew(t, u, i, k)
    ensures Grew(s, u, i, k)
  {
    SameMetaTrans(s.inodes, t.inodes, u.inodes);
  }

  /** There is no free block. */
  ghost predicate Full(sb: Superblock, blocks: seq<Block>) {
    forall c: nat :: c < sb.size ==> Used(sb, blocks, c)
  }

  lemma AttachGrew(sb: Superblock, s: Fs, x: Slot, r: nat, i: nat, k: nat)
    requires Core(sb, s) && CanAttach(s.blocks, s.inodes, x) && sb.first <= r < sb.size && r !in s.owner
    requires x == Data(i, k) || x == Ind(i)
    ensures Grew(s, Attach(sb, s, x, r), i, k)
  {
    AttachCore(sb, s, x, r);
    AttachData(sb, s, x, r);
  }

  lemma EntryIsSlot(sb: Superblock, s: Fs, i: nat, k: nat)
    requires Core(sb, s) && i < |s.inodes| && NDIRECT <= k < MAXFILE && s.inodes[i].addrs[NDIRECT] != 0
    ensures var a := s.inodes[i].addrs[NDIRECT];
      && a < |s.blocks| && At(s.blocks, s.inodes, Ind(i)) == a
      && At(s.blocks, s.inodes, Data(i, k)) == Entry(s.blocks[a], k - NDIRECT)
  {
    IndInRange(sb, s.blocks, s.inodes, s.owner, i);
  }

  /** A free block that is not metadata has no owner. */
  lemma FreeHasNoOwner(sb: Superblock, s: Fs, r: nat)
    requires Core(sb, s) && r < sb.size && !Used(sb, s.blocks, r)
    ensures sb.first <= r && r !in s.owner
  {
  }

  // ---------------------------------------------------------------- bytes

  /** The byte at offset o of block k of file i. */
  function ByteOf(s: Fs, i: nat, k: nat, o: nat): Byte
    requires o < BSIZE
  {
    BlockOf(s.blocks, s.inodes, i, k)[o]
  }

  /** What the byte at position pos is after bytes have been written at off. */
  function Over(pos: nat, off: nat, bytes: seq<Byte>, was: Byte): Byte {
    if off <= pos < off + |bytes| then bytes[pos - off] else was
  }

  /** The files are those of s, with the given bytes written to file i at off. */
  ghost predicate Written(s: Fs, t: Fs, i: nat, off: nat, bytes: seq<Byte>) {
    forall j: nat, k: nat, o: nat :: o < BSIZE ==>
      ByteOf(t, j, k, o) == if j == i then Over(k * 1024 + o, off, bytes, ByteOf(s, j, k, o)) else ByteOf(s, j, k, o)
  }

  function Splice(b: Block, o: nat, src: seq<Byte>): Block
    requires o + |src| <= BSIZE
  {
    b[..o] + src + b[o + |src|..]
  }

  lemma SpliceAt(b: Block, o: nat, src: seq<Byte>, p: nat)
    requires o + |src| <= BSIZE && p < BSIZE
    ensures Splice(b, o, src)[p] == if o <= p < o + |src| then src[p - o] else b[p]
  {
  }

  lemma OverNext(k: nat, o: nat, p: nat, off: nat, src: seq<Byte>, d: nat, n: nat, b: Block, was: Byte)
    requires d + n <= |src| && o + n <= BSIZE && p < BSIZE && k * 1024 + o == off + d
    requires b[p] == Over(k * 1024 + p, off, src[..d], was)
    ensures Splice(b, o, src[d..d + n])[p] == Over(k * 1024 + p, off, src[..d + n], was)
  {
    SpliceAt(b, o, src[d..d + n], p);
  }

  lemma OverElsewhere(k: nat, o: nat, l: nat, p: nat, off: nat, src: seq<Byte>, d: nat, n: nat, was: Byte)
    requires d + n <= |src| && o + n <= BSIZE && p < BSIZE && k * 1024 + o == off + d && k != l
    ensures Over(l * 1024 + p, off, src[..d], was) == Over(l * 1024 + p, off, src[..d + n], was)
  {
  }

  lemma WrittenNext(s: Fs, t: Fs, u: Fs, i: nat, off: nat, src: seq<Byte>, d: nat, k: nat, o: nat, n: nat)
    requires d + n <= |src| && o + n <= BSIZE && k * 1024 + o == off + d && Written(s, t, i, off, src[..d])
    requires OneBlock(t, u, i, k, Splice(BlockOf(t.blocks, t.inodes, i, k), o, src[d..d + n]))
    ensures Written(s, u, i, off, src[..d + n])
  {
    forall j: nat, l: nat, p: nat | p < BSIZE
      ensures ByteOf(u, j, l, p) ==
        if j == i then Over(l * 1024 + p, off, src[..d + n], ByteOf(s, j, l, p)) else ByteOf(s, j, l, p)
    {
      assert ByteOf(t, j, l, p) ==
        if j == i then Over(l * 1024 + p, off, src[..d], ByteOf(s, j, l, p)) else ByteOf(s, j, l, p);
      if j == i {
        if l == k {
          OverNext(k, o, p, off, src, d, n, BlockOf(t.blocks, t.inodes, i, k), ByteOf(s, j, l, p));
        } else {
          OverElsewhere(k, o, l, p, off, src, d, n, ByteOf(s, j, l, p));
        }
      }
    }
  }

  lemma WrittenSame(s: Fs, t: Fs, u: Fs, i: nat, off: nat, bytes: seq<Byte>)
    requires Written(s, t, i, off, bytes) && SameData(t, u)
    ensures Written(s, u, i, off, bytes)
  {
    forall j: nat, k: nat, o: nat | o < BSIZE ensures ByteOf(u, j, k, o) == ByteOf(t, j, k, o) {
    }
  }

  lemma WrittenNone(s: Fs, i: nat, off: nat, src: seq<Byte>)
    ensures Written(s, s, i, off, src[..0])
  {
  }

  /** The bytes are what file i holds at off. */
  ghost predicate Reads(s: Fs, i: nat, off: nat, bytes: seq<Byte>) {
    forall k: nat, o: nat :: o < BSIZE ==> Over(k * 1024 + o, off, bytes, ByteOf(s, i, k, o)) == ByteOf(s, i, k, o)
  }

  lemma OverAppend(l: nat, p: nat, off: nat, bytes: seq<Byte>, k: nat, o: nat, more: seq<Byte>, was: Byte)
    requires p < BSIZE && o + |more| <= BSIZE && k * 1024 + o == off + |bytes|
    requires Over(l * 1024 + p, off, bytes, was) == was && (l == k && o <= p < o + |more| ==> more[p - o] == was)
    ensures Over(l * 1024 + p, off, bytes + more, was) == was
  {
  }

  lemma ReadsNext(s: Fs, i: nat, off: nat, bytes: seq<Byte>, k: nat, o: nat, more: seq<Byte>)
    requires Reads(s, i, off, bytes) && o + |more| <= BSIZE && k * 1024 + o == off + |bytes|
    requires more == BlockOf(s.blocks, s.inodes, i, k)[o..o + |more|]
    ensures Reads(s, i, off, bytes + more)
  {
    forall l: nat, p: nat | p < BSIZE
      ensures Over(l * 1024 + p, off, bytes + more, ByteOf(s, i, l, p)) == ByteOf(s, i, l, p)
    {
      OverAppend(l, p, off, bytes, k, o, more, ByteOf(s, i, l, p));
    }
  }

  /** min(rest, BSIZE - o). */
  function Chunk(o: nat, rest: nat): (n: nat)
    requires o < BSIZE
    ensures n <= rest && o + n <= BSIZE && (n == rest || o + n == BSIZE)
  {
    if rest < BSIZE - o then rest else BSIZE - o
  }

  // ---------------------------------------------------------------- between operations

  /** Files have no holes below their size. */
  ghost predicate Dense(blocks: seq<Block>, inodes: seq<Inode>) {
    forall i: nat, k: nat :: i < |inodes| && k * 1024 < inodes[i].size ==> At(blocks, inodes, Data(i, k)) != 0
  }

  /** A free inode holds nothing. */
  ghost predicate Blank(blocks: seq<Block>, inodes: seq<Inode>) {
    forall x: Slot :: x.i < |inodes| && inodes[x.i].typ == 0 ==> At(blocks, inodes, x) == 0
  }

  ghost predicate Inv(sb: Superblock, s: Fs) {
    Core(sb, s) && Dense(s.blocks, s.inodes) && Blank(s.blocks, s.inodes) && forall i: nat :: SizeOk(s, i)
  }

  /** No file is larger than MAXFILE blocks, and a free inode is empty. */
  predicate SizeOk(s: Fs, i: nat) {
    i < |s.inodes| ==> s.inodes[i].size <= 274432 && (s.inodes[i].typ == 0 ==> s.inodes[i].size == 0)
  }

  /** Slots of file i may have been filled; nothing else about slots or inodes has changed. */
  ghost predicate Stretched(s: Fs, t: Fs, i: nat) {
    && |t.blocks| == |s.blocks| && SameMeta(s.inodes, t.inodes)
    && (forall y: Slot :: At(s.blocks, s.inodes, y) != 0 || y.i != i ==>
      At(t.blocks, t.inodes, y) == At(s.blocks, s.inodes, y))
  }

  lemma StretchedNext(s: Fs, t: Fs, u: Fs, v: Fs, i: nat, k: nat)
    requires Stretched(s, t, i) && Grew(t, u, i, k) && v.inodes == u.inodes && |v.blocks| == |u.blocks|
    requires forall y: Slot :: At(v.blocks, v.inodes, y) == At(u.blocks, u.inodes, y)
    ensures Stretched(s, v, i)
  {
    SameMetaTrans(s.inodes, t.inodes, u.inodes);
  }

  /** Every block of file i that begins below end is there. */
  ghost predicate Covered(s: Fs, i: nat, end: nat) {
    forall k: nat :: k * 1024 < end ==> At(s.blocks, s.inodes, Data(i, k)) != 0
  }

  lemma CoveredNext(t: Fs, u: Fs, i: nat, k: nat, o: nat, n: nat)
    requires Covered(t, i, k * 1024 + o) && o + n <= 1024 && At(u.blocks, u.inodes, Data(i, k)) != 0
    requires forall y: Slot :: At(t.blocks, t.inodes, y) != 0 ==> At(u.blocks, u.inodes, y) == At(t.blocks, t.inodes, y)
    ensures Covered(u, i, k * 1024 + o + n)
  {
    forall l: nat | l * 1024 < k * 1024 + o + n ensures At(u.blocks, u.inodes, Data(i, l)) != 0 {
      if l != k {
        assert At(t.blocks, t.inodes, Data(i, l)) != 0;
      }
    }
  }

  /** writei has got so far: from s it has written these bytes. */
  ghost predicate Writing(sb: Superblock, s: Fs, t: Fs, i: nat, off: nat, bytes: seq<Byte>) {
    && Core(sb, t) && Stretched(s, t, i) && Covered(t, i, off + |bytes|)
    && forall j: nat, k: nat, o: nat :: o < BSIZE ==>
      ByteOf(t, j, k, o) == if j == i then Over(k * 1024 + o, off, bytes, ByteOf(s, j, k, o)) else ByteOf(s, j, k, o)
  }

  lemma WritingStart(sb: Superblock, s: Fs, i: nat, off: nat, src: seq<Byte>)
    requires Inv(sb, s) && i < |s.inodes| && off <= s.inodes[i].size
    ensures Writing(sb, s, s, i, off, src[..0])
  {
    WrittenNone(s, i, off, src);
    forall k: nat | k * 1024 < off + |src[..0]| ensures At(s.blocks, s.inodes, Data(i, k)) != 0 {
    }
  }

  /** Nothing but an allocation happened. */
  lemma WritingSame(sb: Superblock, s: Fs, t: Fs, u: Fs, i: nat, off: nat, bytes: seq<Byte>, k: nat)
    requires Writing(sb, s, t, i, off, bytes) && Grew(t, u, i, k) && Core(sb, u)
    ensures Writing(sb, s, u, i, off, bytes)
  {
    WrittenSame(s, t, u, i, off, bytes);
    StretchedNext(s, t, u, u, i, k);
    forall l: nat | l * 1024 < off + |bytes| ensures At(u.blocks, u.inodes, Data(i, l)) != 0 {
      assert At(t.blocks, t.inodes, Data(i, l)) != 0;
    }
  }

  /** A block was written. */
  lemma WritingNext(sb: Superblock, s: Fs, t: Fs, i: nat, off: nat, src: seq<Byte>, d: nat, k: nat, o: nat, n: nat,
      u: Fs)
    requires d + n <= |src| && o + n <= BSIZE && k * 1024 + o == off + d && Writing(sb, s, t, i, off, src[..d])
    requires 0 < At(t.blocks, t.inodes, Data(i, k)) < |t.blocks|
    requires var a := At(t.blocks, t.inodes, Data(i, k));
      u.blocks == t.blocks[a := Splice(t.blocks[a], o, src[d..d + n])] && u.inodes == t.inodes && u.owner == t.owner
    ensures Writing(sb, s, u, i, off, src[..d + n])
  {
    var a := At(t.blocks, t.inodes, Data(i, k));
    var c := Splice(t.blocks[a], o, src[d..d + n]);
    WriteCore(sb, t, i, k, c);
    WriteData(sb, t, i, k, c);
    WrittenNext(s, t, u, i, off, src, d, k, o, n);
    CoveredNext(t, u, i, k, o, n);
    assert off + |src[..d + n]| == k * 1024 + o + n;
  }

  /** IBLOCK. */
  function InodeBlock(sb: Superblock, i: nat): nat {
    i / 16 + sb.inodestart
  }

  /** iupdate after a new size. */
  function Resized(sb: Superblock, s: Fs, i: nat, size: nat): Fs
    requires i < |s.inodes|
  {
    s.(inodes := s.inodes[i := s.inodes[i].(size := size)], logged := s.logged + {InodeBlock(sb, i)})
  }

  lemma ResizedAt(sb: Superblock, s: Fs, i: nat, size: nat)
    requires i < |s.inodes|
    ensures forall y: Slot :: At(s.blocks, Resized(sb, s, i, size).inodes, y) == At(s.blocks, s.inodes, y)
    ensures SameData(s, Resized(sb, s, i, size))
  {
    var t := Resized(sb, s, i, size);
    forall j: nat, k: nat ensures BlockOf(t.blocks, t.inodes, j, k) == BlockOf(s.blocks, s.inodes, j, k) {
      assert At(t.blocks, t.inodes, Data(j, k)) == At(s.blocks, s.inodes, Data(j, k));
    }
  }

  lemma WritingDense(sb: Superblock, s: Fs, t: Fs, i: nat, off: nat, bytes: seq<Byte>, size: nat)
    requires Inv(sb, s) && Writing(sb, s, t, i, off, bytes) && i < |s.inodes|
    requires size == if off + |bytes| > s.inodes[i].size then off + |bytes| else s.inodes[i].size
    ensures Dense(t.blocks, Resized(sb, t, i, size).inodes)
  {
    ResizedAt(sb, t, i, size);
    var n := Resized(sb, t, i, size).inodes;
    forall j: nat, k: nat | j < |n| && k * 1024 < n[j].size ensures At(t.blocks, n, Data(j, k)) != 0 {
      assert At(t.blocks, n, Data(j, k)) == At(t.blocks, t.inodes, Data(j, k));
      if k * 1024 < s.inodes[j].size { assert At(s.blocks, s.inodes, Data(j, k)) != 0; }
    }
  }

  lemma WritingBlank(sb: Superblock, s: Fs, t: Fs, i: nat, off: nat, bytes: seq<Byte>, size: nat)
    requires Inv(sb, s) && Writing(sb, s, t, i, off, bytes) && i < |s.inodes| && s.inodes[i].typ != 0
    ensures Blank(t.blocks, Resized(sb, t, i, size).inodes)
  {
    ResizedAt(sb, t, i, size);
    var n := Resized(sb, t, i, size).inodes;
    forall x: Slot | x.i < |n| && n[x.i].typ == 0 ensures At(t.blocks, n, x) == 0 {
      assert At(s.blocks, s.inodes, x) == 0;
    }
  }

  /** What writei leaves behind satisfies the invariant again. */
  lemma WritingDone(sb: Superblock, s: Fs, t: Fs, i: nat, off: nat, bytes: seq<Byte>, size: nat)
    requires Inv(sb, s) && Writing(sb, s, t, i, off, bytes) && i < |s.inodes| && s.inodes[i].typ != 0
    requires size <= 274432 && size == if off + |bytes| > s.inodes[i].size then off + |bytes| else s.inodes[i].size
    ensures Inv(sb, Resized(sb, t, i, size)) && Written(s, Resized(sb, t, i, size), i, off, bytes)
  {
    forall j: nat ensures SizeOk(Resized(sb, t, i, size), j) { assert SizeOk(s, j); }
    ResizedAt(sb, t, i, size);
    OwnedSame(sb, t.blocks, t.inodes, t.owner, t.blocks, Resized(sb, t, i, size).inodes);
    WritingDense(sb, s, t, i, off, bytes, size);
    WritingBlank(sb, s, t, i, off, bytes, size);
    WrittenSame(s, t, Resized(sb, t, i, size), i, off, bytes);
  }

  /** The number of blocks that the positions [off, off + n) lie in. */
  function Span(off: nat, n: nat): nat {
    if n == 0 then 0 else (off + n - 1) / 1024 - off / 1024 + 1
  }

  lemma SpanFits(off: nat, n: nat)
    ensures off + n <= (off / 1024 + Span(off, n)) * 1024 || n == 0
  {
  }

  lemma SmallSpan(off: nat, n: nat)
    requires n <= 3072
    ensures Span(off, n) <= 4
  {
  }

  // ---------------------------------------------------------------- what the log is told

  /** Block b has changed since s only if it was logged, and what was logged is neither the boot
      block nor the super block nor a block of the log. */
  predicate LoggedAt(sb: Superblock, s: Fs, t: Fs, b: nat) {
    && (b in s.logged ==> b in t.logged)
    && (b in t.logged ==> b in s.logged || sb.inodestart <= b < sb.size)
    && (b < |s.blocks| && b < |t.blocks| && b !in t.logged ==> t.blocks[b] == s.blocks[b])
  }

  predicate SameInode(s: Fs, t: Fs, j: nat) {
    j < |s.inodes| && j < |t.inodes| ==> t.inodes[j] == s.inodes[j]
  }

  /** Since s, only blocks that were logged have changed, and among the inodes only the i-th. */
  ghost predicate OnlyLogged(sb: Superblock, s: Fs, t: Fs, i: nat) {
    && |t.blocks| == |s.blocks| && |t.inodes| == |s.inodes|
    && (forall b: nat :: LoggedAt(sb, s, t, b)) && forall j: nat :: j != i ==> SameInode(s, t, j)
  }

  lemma OnlyLoggedSame(sb: Superblock, s: Fs, i: nat)
    ensures OnlyLogged(sb, s, s, i)
  {
  }

  lemma OnlyLoggedTrans(sb: Superblock, s: Fs, t: Fs, u: Fs, i: nat)
    requires OnlyLogged(sb, s, t, i) && OnlyLogged(sb, t, u, i)
    ensures OnlyLogged(sb, s, u, i)
  {
    forall b: nat ensures LoggedAt(sb, s, u, b) { assert LoggedAt(sb, s, t, b) && LoggedAt(sb, t, u, b); }
    forall j: nat | j != i ensures SameInode(s, u, j) { assert SameInode(s, t, j) && SameInode(t, u, j); }
  }

  /** balloc logs the bitmap block and the new block. */
  lemma AttachLogged(sb: Superblock, s: Fs, x: Slot, r: nat, i: nat, t: Fs)
    requires Core(sb, s) && CanAttach(s.blocks, s.inodes, x) && sb.first <= r < sb.size && x.i == i
    requires t.inodes == PutInodes(s.inodes, x, r)
    requires t.blocks == PutBlocks(Allocated(sb, s.blocks, r), s.inodes, x, r)
    requires t.logged == s.logged + {MapBlock(sb, r), r}
      + if x.Data? && x.k >= NDIRECT then {s.inodes[i].addrs[NDIRECT]} else {}
    ensures OnlyLogged(sb, s, t, i)
  {
    MapBlockRange(sb, r);
    if x.Data? && x.k >= NDIRECT { IndInRange(sb, s.blocks, s.inodes, s.owner, i); }
    forall b: nat ensures LoggedAt(sb, s, t, b) {}
    forall j: nat | j != i ensures SameInode(s, t, j) {}
  }

  lemma BlockLogged(sb: Superblock, s: Fs, a: nat, c: Block, i: nat)
    requires a < |s.blocks| && sb.inodestart <= a < sb.size
    ensures OnlyLogged(sb, s, s.(blocks := s.blocks[a := c], logged := s.logged + {a}), i)
  {
    var t := s.(blocks := s.blocks[a := c], logged := s.logged + {a});
    forall b: nat ensures LoggedAt(sb, s, t, b) {}
    forall j: nat | j != i ensures SameInode(s, t, j) {}
  }

  lemma ResizedLogged(sb: Superblock, s: Fs, i: nat, size: nat)
    requires |s.inodes| == sb.ninodes && i < |s.inodes|
    ensures OnlyLogged(sb, s, Resized(sb, s, i, size), i)
  {
    var t := Resized(sb, s, i, size);
    assert i / 16 <= sb.ninodes / 16;
    forall b: nat ensures LoggedAt(sb, s, t, b) {}
    forall j: nat | j != i ensures SameInode(s, t, j) {}
  }

  /** Since s, only bitmap blocks, the indirect block and the blocks in d were logged. */
  ghost predicate Footprint(sb: Superblock, s: Fs, t: Fs, i: nat, d: set<nat>) {
    t.logged <= s.logged + MapBlocks(sb) + One(At(t.blocks, t.inodes, Ind(i))) + d
  }

  lemma FootprintNext(sb: Superblock, s: Fs, t: Fs, u: Fs, i: nat, d: set<nat>, e: set<nat>)
    requires Footprint(sb, s, t, i, d) && Footprint(sb, t, u, i, e)
    requires At(t.blocks, t.inodes, Ind(i)) != 0 ==> At(u.blocks, u.inodes, Ind(i)) == At(t.blocks, t.inodes, Ind(i))
    ensures Footprint(sb, s, u, i, d + e)
  {
  }

  lemma OneMore(d: set<nat>, a: nat)
    ensures |d + One(a)| <= |d| + 1
  {
    if a != 0 && a !in d { assert d + One(a) == d + {a}; } else { assert d + One(a) == d; }
  }

  lemma FootprintTurn(sb: Superblock, s: Fs, t: Fs, u: Fs, i: nat, d: set<nat>, a: nat)
    requires Footprint(sb, s, t, i, d) && Footprint(sb, t, u, i, One(a))
    requires At(t.blocks, t.inodes, Ind(i)) != 0 ==> At(u.blocks, u.inodes, Ind(i)) == At(t.blocks, t.inodes, Ind(i))
    ensures Footprint(sb, s, u, i, d + One(a)) && |d + One(a)| <= |d| + 1
  {
    FootprintNext(sb, s, t, u, i, d, One(a));
    OneMore(d, a);
  }

  lemma FootprintResized(sb: Superblock, s: Fs, t: Fs, i: nat, size: nat, d: set<nat>)
    requires i < |t.inodes| && Footprint(sb, s, t, i, d)
    ensures var e := d + One(InodeBlock(sb, i)); Footprint(sb, s, Resized(sb, t, i, size), i, e) && |e| <= |d| + 1
  {
    ResizedAt(sb, t, i, size);
    OneMore(d, InodeBlock(sb, i));
  }

  lemma MetaResized(sb: Superblock, n: seq<Inode>, t: Fs, i: nat, size: nat)
    requires SameMeta(n, t.inodes) && i < |n|
    ensures MetaExcept(n, Resized(sb, t, i, size).inodes, i)
  {
  }

  /** Type and link counts have not changed, and sizes only of file i. */
  ghost predicate MetaExcept(n: seq<Inode>, m: seq<Inode>, i: nat) {
    && |m| == |n|
    && forall j :: 0 <= j < |n| ==> m[j] == n[j].(addrs := m[j].addrs, size := if j == i then m[j].size else n[j].size)
  }

  function One(a: nat): set<nat> {
    if a == 0 then {} else {a}
  }

  class FileSys {
    const sb: Superblock
    var s: Fs

    constructor (sb: Superblock, s: Fs)
      ensures this.sb == sb && this.s == s
    {
      this.sb, this.s := sb, s;
    }

    /** balloc: the first free block, marked used and cleared; 0 if there is none. */
    method Balloc() returns (r: nat)
      requires Core(sb, s)
      modifies `s
      ensures r == 0 <==> Full(sb, old(s.blocks))
      ensures r == 0 ==> s == old(s)
      ensures r != 0 ==>
        r < sb.size && !Used(sb, old(s.blocks), r) && forall c: nat :: c < r ==> Used(sb, old(s.blocks), c)
      ensures r != 0 ==>
        s == old(s).(blocks := Allocated(sb, old(s.blocks), r), logged := old(s.logged) + {MapBlock(sb, r), r})
    {
      var f := FindFree(sb, s.blocks);
      if f == None {
        return 0;
      }
      r := f.value;
      FreeHasNoOwner(sb, s, r);
      MapBlockRange(sb, r);
      var m := MapBlock(sb, r);
      OrSetsBit(s.blocks[m], r % 8192);
      s := s.(blocks := s.blocks[m := OrBit(s.blocks[m], r % 8192)][r := Zero()], logged := s.logged + {m, r});
    }

    /** balloc, and the new block number stored in a slot of file i. */
    method Fill(x: Slot, i: nat, k: nat) returns (r: nat)
      requires Core(sb, s) && CanAttach(s.blocks, s.inodes, x) && (x == Data(i, k) || x == Ind(i))
      modifies `s
      ensures Core(sb, s) && Grew(old(s), s, i, k)
      ensures r == At(s.blocks, s.inodes, x) && (r == 0 ==> s == old(s) && Full(sb, s.blocks))
      ensures s.logged <= old(s.logged) + MapBlocks(sb) + One(r) + One(At(s.blocks, s.inodes, Ind(i)))
      ensures OnlyLogged(sb, old(s), s, i)
    {
      r := Balloc();
      OnlyLoggedSame(sb, s, i);
      if r != 0 {
        FreeHasNoOwner(sb, old(s), r);
        AttachCore(sb, old(s), x, r);
        AttachGrew(sb, old(s), x, r, i, k);
        MapBlockRange(sb, r);
        s := s.(blocks := PutBlocks(s.blocks, s.inodes, x, r), inodes := PutInodes(s.inodes, x, r),
                owner := s.owner[r := x],
          logged := if x.Data? && k >= NDIRECT then s.logged + {s.inodes[i].addrs[NDIRECT]} else s.logged);
        AttachLogged(sb, old(s), x, r, i, s);
      }
    }
  
    /** bmap: the block number of block k of file i, allocated if need be.  Blocks that are
        there stay where they are, and no file changes. */
    method Bmap(i: nat, k: nat) returns (r: nat)
      requires Core(sb, s) && i < |s.inodes| && k < MAXFILE
      modifies `s
      ensures Core(sb, s) && Grew(old(s), s, i, k) && r == At(s.blocks, s.inodes, Data(i, k))
      ensures At(old(s.blocks), old(s.inodes), Data(i, k)) != 0 ==> s == old(s)
      ensures r == 0 ==> Full(sb, s.blocks)
      ensures s.logged <= old(s.logged) + MapBlocks(sb) + One(r) + One(At(s.blocks, s.inodes, Ind(i)))
      ensures OnlyLogged(sb, old(s), s, i)
    {
      OnlyLoggedSame(sb, s, i);
      if k < NDIRECT {
        r := s.inodes[i].addrs[k];
        if r == 0 {
          r := Fill(Data(i, k), i, k);
        }
      } else {
        var a := s.inodes[i].addrs[NDIRECT];
        if a == 0 {
          a := Fill(Ind(i), i, k);
          if a == 0 {
            return 0;
          }
        }
        ghost var t := s;
        r := BmapEntry(i, k, old(s));
        OnlyLoggedTrans(sb, old(s), t, s, i);
      }
    }

    /** bmap with the indirect block in place. */
    method BmapEntry(i: nat, k: nat, ghost s0: Fs) returns (r: nat)
      requires Core(sb, s) && i < |s.inodes| && NDIRECT <= k < MAXFILE && s.inodes[i].addrs[NDIRECT] != 0
      requires Grew(s0, s, i, k)
      modifies `s
      ensures Core(sb, s) && Grew(s0, s, i, k) && r == At(s.blocks, s.inodes, Data(i, k))
      ensures At(old(s.blocks), old(s.inodes), Data(i, k)) != 0 ==> s == old(s)
      ensures At(s.blocks, s.inodes, Ind(i)) == old(s.inodes)[i].addrs[NDIRECT]
      ensures r == 0 ==> Full(sb, s.blocks)
      ensures s.logged <= old(s.logged) + MapBlocks(sb) + One(r) + One(At(s.blocks, s.inodes, Ind(i)))
      ensures OnlyLogged(sb, old(s), s, i)
    {
      OnlyLoggedSame(sb, s, i);
      EntryIsSlot(sb, s, i, k);
      r := Entry(s.blocks[s.inodes[i].addrs[NDIRECT]], k - NDIRECT);
      if r == 0 {
        r := Fill(Data(i, k), i, k);
        GrewTrans(s0, old(s), s, i, k);
      }
    }
  
    /** readi: the bytes of the range that lie within the file.  It never allocates. */
    method Readi(i: nat, off: nat, n: nat) returns (bytes: seq<Byte>)
      requires Inv(sb, s) && i < |s.inodes| && off < U32 && n < U32
      modifies `s
      ensures s == old(s) && Reads(s, i, off, bytes)
      ensures var size := s.inodes[i].size;
        |bytes| == if off > size || off + n >= U32 then 0 else if off + n > size then size - off else n
    {
      bytes := [];
      var size := s.inodes[i].size;
      if off > size || (off + n) % U32 < off {
        return;
      }
      var m := if off + n > size then size - off else n;
      var k: nat, o: nat := off / 1024, off % 1024;
      while |bytes| < m
        invariant s == old(s) && |bytes| <= m && Reads(s, i, off, bytes)
        invariant o < BSIZE && (|bytes| < m ==> k * 1024 + o == off + |bytes|)
        decreases m - |bytes|
      {
        var c := Chunk(o, m - |bytes|);
        bytes := ReadTurn(i, off, bytes, k, o, c);
        k, o := k + 1, 0;
      }
    }

    method ReadTurn(i: nat, off: nat, got: seq<Byte>, k: nat, o: nat, n: nat) returns (bytes: seq<Byte>)
      requires Inv(sb, s) && i < |s.inodes| && o + n <= BSIZE && k * 1024 + o == off + |got| && Reads(s, i, off, got)
      requires k * 1024 + o < s.inodes[i].size
      modifies `s
      ensures s == old(s) && Reads(s, i, off, bytes) && |bytes| == |got| + n
    {
      InFile(sb, s, i, k);
      var a := Bmap(i, k);
      ReadsNext(s, i, off, got, k, o, s.blocks[a][o..o + n]);
      bytes := got + s.blocks[a][o..o + n];
    }

    /** One turn of writei's loop. */
    method WriteTurn(i: nat, off: nat, src: seq<Byte>, d: nat, k: nat, o: nat, n: nat, ghost s0: Fs) returns (ok: bool)
      requires d + n <= |src| && o + n <= BSIZE && k * 1024 + o == off + d && k < MAXFILE && i < |s.inodes|
      requires Writing(sb, s0, s, i, off, src[..d])
      modifies `s
      ensures Writing(sb, s0, s, i, off, src[..if ok then d + n else d]) && (!ok ==> Full(sb, s.blocks))
      ensures |s.inodes| == |old(s.inodes)|
      ensures At(old(s.blocks), old(s.inodes), Ind(i)) != 0 ==>
        At(s.blocks, s.inodes, Ind(i)) == At(old(s.blocks), old(s.inodes), Ind(i))
      ensures Footprint(sb, old(s), s, i, One(At(s.blocks, s.inodes, Data(i, k)))) && OnlyLogged(sb, old(s), s, i)
    {
      var a := Bmap(i, k);
      WritingSame(sb, s0, old(s), s, i, off, src[..d], k);
      ok := a != 0;
      if ok {
        ghost var t := s;
        SlotInRange(sb, s, Data(i, k));
        WriteCore(sb, s, i, k, Splice(s.blocks[a], o, src[d..d + n]));
        BlockLogged(sb, s, a, Splice(s.blocks[a], o, src[d..d + n]), i);
        s := s.(blocks := s.blocks[a := Splice(s.blocks[a], o, src[d..d + n])], logged := s.logged + {a});
        OnlyLoggedTrans(sb, old(s), t, s, i);
        WritingNext(sb, s0, t, i, off, src, d, k, o, n, s);
      }
    }

    /** The same turn with what it adds to the blocks touched so far; next bytes have been
        written after it. */
    method WriteMore(i: nat, off: nat, src: seq<Byte>, d: nat, k: nat, o: nat, n: nat, ghost s0: Fs,
        ghost was: set<nat>)
      returns (ok: bool, next: nat, ghost touched: set<nat>)
      requires d + n <= |src| && o + n <= BSIZE && k * 1024 + o == off + d && k < MAXFILE && i < |s.inodes|
      requires Writing(sb, s0, s, i, off, src[..d]) && Footprint(sb, s0, s, i, was) && OnlyLogged(sb, s0, s, i)
      modifies `s
      ensures next == (if ok then d + n else d) && Writing(sb, s0, s, i, off, src[..next])
      ensures (!ok ==> Full(sb, s.blocks)) && OnlyLogged(sb, s0, s, i)
      ensures |s.inodes| == |old(s.inodes)| && Footprint(sb, s0, s, i, touched) && |touched| <= |was| + 1
    {
      ok := WriteTurn(i, off, src, d, k, o, n, s0);
      next := if ok then d + n else d;
      ghost var a := At(s.blocks, s.inodes, Data(i, k));
      FootprintTurn(sb, s0, old(s), s, i, was, a);
      OnlyLoggedTrans(sb, s0, old(s), s, i);
      touched := was + One(a);
    }

    /** writei's loop, from offset o of block k on.  It ends early only when the disk is full;
        cap is a bound on the number of turns. */
    method WriteAll(i: nat, off: nat, src: seq<Byte>, k0: nat, o0: nat, ghost cap: nat)
      returns (tot: nat, ghost touched: set<nat>)
      requires Inv(sb, s) && i < |s.inodes| && off <= s.inodes[i].size && off + |src| <= 274432
      requires k0 * 1024 + o0 == off && o0 < BSIZE && (off + |src| <= (k0 + cap) * 1024 || src == [])
      modifies `s
      ensures tot <= |src| && Writing(sb, old(s), s, i, off, src[..tot]) && (tot < |src| ==> Full(sb, s.blocks))
      ensures Footprint(sb, old(s), s, i, touched) && |touched| <= cap && OnlyLogged(sb, old(s), s, i)
    {
      var k: nat, o: nat := k0, o0;
      tot, touched := 0, {};
      WritingStart(sb, s, i, off, src);
      OnlyLoggedSame(sb, s, i);
      while tot < |src|
        invariant tot <= |src| && Writing(sb, old(s), s, i, off, src[..tot]) && |s.inodes| == |old(s.inodes)|
        invariant o < BSIZE && (tot < |src| ==> k * 1024 + o == off + tot)
        invariant Footprint(sb, old(s), s, i, touched) && |touched| + k0 <= k <= k0 + cap
        invariant OnlyLogged(sb, old(s), s, i)
      {
        var n := Chunk(o, |src| - tot);
        var ok;
        ok, tot, touched := WriteMore(i, off, src, tot, k, o, n, old(s), touched);
        if !ok {
          return;
        }
        k, o := k + 1, 0;
      }
    }

    /** writei: the bytes are in the file, as many as the disk had room for; nothing else in
        this or any other file has changed.  -1 for a range that starts beyond the end or ends
        beyond the largest file. */
    method Writei(i: nat, off: nat, src: seq<Byte>) returns (r: int, ghost touched: set<nat>)
      requires Inv(sb, s) && i < |s.inodes| && s.inodes[i].typ != 0 && off < U32 && |src| < U32
      modifies `s
      ensures Inv(sb, s)
      ensures r < 0 <==> off > old(s.inodes)[i].size || off + |src| > 274432
      ensures r < 0 ==> r == -1 && s == old(s)
      ensures r >= 0 ==> r <= |src| && Written(old(s), s, i, off, src[..r]) && MetaExcept(old(s.inodes), s.inodes, i)
      ensures r >= 0 ==>
        s.inodes[i].size == if off + r > old(s.inodes)[i].size then off + r else old(s.inodes)[i].size
      ensures 0 <= r < |src| ==> Full(sb, s.blocks)
      ensures Footprint(sb, old(s), s, i, touched) && |touched| <= Span(off, |src|) + 1
      ensures OnlyLogged(sb, old(s), s, i) && (r >= 0 ==> InodeBlock(sb, i) in s.logged)
    {
      touched := {};
      OnlyLoggedSame(sb, s, i);
      assert SizeOk(s, i);
      var size := s.inodes[i].size;
      if off > size || (off + |src|) % U32 < off {
        return -1, {};
      }
      if (off + |src|) % U32 > MAXFILE * BSIZE {
        return -1, {};
      }
      SpanFits(off, |src|);
      r, touched := WriteAll(i, off, src, off / 1024, off % 1024, Span(off, |src|));
      var end := if off + r > size then off + r else size;
      WritingDone(sb, old(s), s, i, off, src[..r], end);
      FootprintResized(sb, old(s), s, i, end, touched);
      MetaResized(sb, old(s.inodes), s, i, end);
      ResizedLogged(sb, s, i, end);
      OnlyLoggedTrans(sb, old(s), s, Resized(sb, s, i, end), i);
      s := Resized(sb, s, i, end);
      touched := touched + One(InodeBlock(sb, i));
    }
  }

  lemma InvLogged(sb: Superblock, s: Fs)
    requires Inv(sb, s)
    ensures Inv(sb, s.(logged := {}))
  {
    forall i: nat ensures SizeOk(s.(logged := {}), i) { assert SizeOk(s, i); }
  }

  lemma WrittenFrom(s: Fs, t: Fs, u: Fs, i: nat, off: nat, bytes: seq<Byte>)
    requires t.blocks == s.blocks && t.inodes == s.inodes && Written(t, u, i, off, bytes)
    ensures Written(s, u, i, off, bytes)
  {
    forall j: nat, k: nat, o: nat | o < BSIZE ensures ByteOf(s, j, k, o) == ByteOf(t, j, k, o) {
    }
  }

  lemma FootprintSize(sb: Superblock, s: Fs, t: Fs, i: nat, d: set<nat>)
    requires Footprint(sb, s, t, i, d) && s.logged == {}
    ensures |t.logged| <= |MapBlocks(sb)| + 1 + |d|
  {
    var a, b := MapBlocks(sb), One(At(t.blocks, t.inodes, Ind(i)));
    SetBound(t.logged, a + b, d);
    SetBound(a + b, a, b);
  }

  lemma {:induction false} SetBound(x: set<nat>, y: set<nat>, z: set<nat>)
    requires x <= y + z
    ensures |x| <= |y| + |z|
  {
    SubsetSize(x, y + z);
    assert |y + z| == |y| + |z| - |y * z|;
  }


  lemma SlotInRange(sb: Superblock, s: Fs, x: Slot)
    requires Core(sb, s) && At(s.blocks, s.inodes, x) != 0
    ensures sb.first <= At(s.blocks, s.inodes, x) < sb.size
  {
  }

  lemma InFile(sb: Superblock, s: Fs, i: nat, k: nat)
    requires Inv(sb, s) && i < |s.inodes| && k * 1024 < s.inodes[i].size
    ensures k < MAXFILE && At(s.blocks, s.inodes, Data(i, k)) != 0
    ensures sb.first <= At(s.blocks, s.inodes, Data(i, k)) < sb.size == |s.blocks|
  {
    assert SizeOk(s, i);
  }
}
