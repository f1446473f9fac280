/** The block and inode layers of kernel/fs.c: which blocks belong to which inode, and what
  the files contain. */
module FileSystem {
  import opened DiskFormat

  /** NDIRECT and MAXFILE. */
  const NDIRECT: nat := 12
  const MAXFILE: nat := 268

  /** The super block; first is the first data block. */
  datatype Super = Super(size: nat, ninodes: nat, inodestart: nat, bmapstart: nat, first: nat)

  /** The layout of mkfs: inode blocks, free map, data blocks. */
  predicate SuperOk(sb: Super) {
    && 0 < sb.size < U32 && 2 <= sb.inodestart && sb.inodestart + sb.ninodes / 16 < sb.bmapstart
    && sb.bmapstart + (sb.size - 1) / 8192 < sb.first <= sb.size
  }

  type Superblock = sb: Super | SuperOk(sb) witness Super(2000, 200, 33, 46, 47)

  type Addrs = a: seq<nat> | |a| == NDIRECT + 1 witness seq(NDIRECT + 1, _ => 0)

  datatype Inode = Inode(typ: nat, nlink: nat, size: nat, addrs: Addrs)

  /** What can refer to a block: an inode for its k-th data block, or for its indirect block. */
  datatype Slot = Data(i: nat, k: nat) | Ind(i: nat)

  /** owner records which slot refers to each allocated data block; no code reads it.  logged
      is the set of blocks passed to log_write. */
  datatype Fs = Fs(blocks: seq<Block>, inodes: seq<Inode>, owner: map<nat, Slot>, logged: set<nat>)

  /** The block number in a slot, or 0. */
  function At(blocks: seq<Block>, inodes: seq<Inode>, x: Slot): nat {
    if x.i >= |inodes| then 0
    else
      var a := inodes[x.i].addrs;
      match x
      case Ind(_) => a[NDIRECT]
      case Data(_, k) =>
        if k < NDIRECT then a[k]
        else if k < MAXFILE && a[NDIRECT] != 0 && a[NDIRECT] < |blocks| then Entry(blocks[a[NDIRECT]], k - NDIRECT)
        else 0
  }

  // ---------------------------------------------------------------- the free map

  /** BBLOCK. */
  function MapBlock(sb: Superblock, b: nat): nat {
    sb.bmapstart + b / 8192
  }

  lemma MapBlockRange(sb: Superblock, b: nat)
    requires b < sb.size
    ensures sb.bmapstart <= MapBlock(sb, b) < sb.first
  {
  }

  predicate Used(sb: Superblock, blocks: seq<Block>, b: nat) {
    MapBlock(sb, b) < |blocks| && Bit(blocks[MapBlock(sb, b)], b % 8192)
  }

  lemma UsedSet(sb: Superblock, blocks: seq<Block>, b: nat, c: nat)
    requires MapBlock(sb, b) < |blocks|
    ensures var t := blocks[MapBlock(sb, b) := SetBit(blocks[MapBlock(sb, b)], b % 8192, true)];
      Used(sb, t, c) <==> c == b || Used(sb, blocks, c)
  {
    BitSet(blocks[MapBlock(sb, b)], b % 8192, true, c % 8192);
  }

  lemma UsedCleared(sb: Superblock, blocks: seq<Block>, b: nat, c: nat)
    requires MapBlock(sb, b) < |blocks|
    ensures var t := blocks[MapBlock(sb, b) := SetBit(blocks[MapBlock(sb, b)], b % 8192, false)];
      Used(sb, t, c) <==> c != b && Used(sb, blocks, c)
  {
    BitSet(blocks[MapBlock(sb, b)], b % 8192, false, c % 8192);
  }

  /** Exactly the metadata blocks and the blocks with an owner are marked used. */
  ghost predicate Marked(sb: Superblock, blocks: seq<Block>, owner: map<nat, Slot>) {
    forall b: nat :: b < sb.size ==> (Used(sb, blocks, b) <==> b < sb.first || b in owner)
  }

  /** Every slot refers to a block of its own. */
  ghost predicate Owned(sb: Superblock, blocks: seq<Block>, inodes: seq<Inode>, owner: map<nat, Slot>) {
    && (forall x: Slot :: At(blocks, inodes, x) != 0 ==>
      At(blocks, inodes, x) in owner && owner[At(blocks, inodes, x)] == x)
    && (forall b :: b in owner ==> sb.first <= b < sb.size && At(blocks, inodes, owner[b]) == b)
  }

  ghost predicate Core(sb: Superblock, s: Fs) {
    && |s.blocks| == sb.size && |s.inodes| == sb.ninodes
    && Owned(sb, s.blocks, s.inodes, s.owner) && Marked(sb, s.blocks, s.owner)
  }

  // ---------------------------------------------------------------- changing a slot

  lemma DirectPutAt(blocks: seq<Block>, inodes: seq<Inode>, i: nat, k: nat, r: nat, y: Slot)
    requires i < |inodes| && k < NDIRECT
    ensures At(blocks, inodes[i := inodes[i].(addrs := inodes[i].addrs[k := r])], y) ==
      if y == Data(i, k) then r else At(blocks, inodes, y)
  {
  }

  /** The indirect block comes and goes when it holds no block numbers. */
  lemma IndPutAt(blocks: seq<Block>, inodes: seq<Inode>, i: nat, r: nat, y: Slot)
    requires i < |inodes| && r < |blocks|
    requires y.Data? && y.i == i && NDIRECT <= y.k < MAXFILE ==>
      At(blocks, inodes, y) == 0 && (r == 0 || Entry(blocks[r], y.k - NDIRECT) == 0)
    ensures At(blocks, inodes[i := inodes[i].(addrs := inodes[i].addrs[NDIRECT := r])], y) ==
      if y == Ind(i) then r else At(blocks, inodes, y)
  {
  }

  lemma EntryIn(blocks: seq<Block>, a: nat, j: nat, v: nat, c: nat, l: nat)
    requires a < |blocks| && c < |blocks| && j < NINDIRECT && l < NINDIRECT && v < U32
    ensures Entry(blocks[a := PutEntry(blocks[a], j, v)][c], l) == if c == a && l == j then v else Entry(blocks[c], l)
  {
    EntryUpdate(blocks[a], j, v, l);
  }

  lemma EntryPutAt(blocks: seq<Block>, inodes: seq<Inode>, i: nat, k: nat, v: nat, y: Slot)
    requires i < |inodes| && NDIRECT <= k < MAXFILE && 0 < inodes[i].addrs[NDIRECT] < |blocks| && v < U32
    requires y.i < |inodes| && y.i != i ==> inodes[y.i].addrs[NDIRECT] != inodes[i].addrs[NDIRECT]
    ensures var a := inodes[i].addrs[NDIRECT];
      At(blocks[a := PutEntry(blocks[a], k - NDIRECT, v)], inodes, y) ==
        if y == Data(i, k) then v else At(blocks, inodes, y)
  {
    if y.Data? && NDIRECT <= y.k < MAXFILE && y.i < |inodes| && 0 < inodes[y.i].addrs[NDIRECT] < |blocks| {
      EntryIn(blocks, inodes[i].addrs[NDIRECT], k - NDIRECT, v, inodes[y.i].addrs[NDIRECT], y.k - NDIRECT);
    }
  }

  /** No slot changes when a block that is not an indirect block does. */
  lemma BlockPut(sb: Superblock, blocks: seq<Block>, inodes: seq<Inode>, owner: map<nat, Slot>, b: nat, c: Block)
    requires Owned(sb, blocks, inodes, owner) && 0 < b < |blocks| && (b in owner ==> owner[b].Data?)
    ensures forall y: Slot :: At(blocks[b := c], inodes, y) == At(blocks, inodes, y)
  {
    forall y: Slot ensures At(blocks[b := c], inodes, y) == At(blocks, inodes, y) {
      assert y.i < |inodes| ==> At(blocks, inodes, Ind(y.i)) == inodes[y.i].addrs[NDIRECT];
    }
  }

  // ---------------------------------------------------------------- owners

  lemma OwnedAttach(sb: Superblock, b: seq<Block>, n: seq<Inode>, owner: map<nat, Slot>, b': seq<Block>,
      n': seq<Inode>, x: Slot, r: nat)
    requires Owned(sb, b, n, owner) && At(b, n, x) == 0 && r !in owner && 0 < sb.first <= r < sb.size
    requires forall y: Slot :: At(b', n', y) == if y == x then r else At(b, n, y)
    ensures Owned(sb, b', n', owner[r := x])
  {
  }

  lemma OwnedDetach(sb: Superblock, b: seq<Block>, n: seq<Inode>, owner: map<nat, Slot>, b': seq<Block>,
      n': seq<Inode>, x: Slot)
    requires Owned(sb, b, n, owner) && At(b, n, x) != 0
    requires forall y: Slot :: At(b', n', y) == if y == x then 0 else At(b, n, y)
    ensures Owned(sb, b', n', owner - {At(b, n, x)})
  {
  }

  lemma OwnedSame(sb: Superblock, b: seq<Block>, n: seq<Inode>, owner: map<nat, Slot>, b': seq<Block>, n': seq<Inode>)
    requires Owned(sb, b, n, owner) && forall y: Slot :: At(b', n', y) == At(b, n, y)
    ensures Owned(sb, b', n', owner)
  {
  }

  /** Data blocks play no part in the free map. */
  lemma MarkedFrame(sb: Superblock, blocks: seq<Block>, t: seq<Block>, owner: map<nat, Slot>)
    requires Marked(sb, blocks, owner) && |t| == |blocks|
    requires forall b :: 0 <= b < |t| && b < sb.first ==> t[b] == blocks[b]
    ensures Marked(sb, t, owner)
  {
    forall b: nat | b < sb.size ensures Used(sb, t, b) <==> Used(sb, blocks, b) {
      MapBlockRange(sb, b);
    }
  }

  lemma MarkedSet(sb: Superblock, blocks: seq<Block>, owner: map<nat, Slot>, b: nat, x: Slot)
    requires |blocks| == sb.size && Marked(sb, blocks, owner) && b < sb.size
    ensures MapBlock(sb, b) < |blocks|
    ensures Marked(sb, blocks[MapBlock(sb, b) := SetBit(blocks[MapBlock(sb, b)], b % 8192, true)], owner[b := x])
  {
    MapBlockRange(sb, b);
    var t := blocks[MapBlock(sb, b) := SetBit(blocks[MapBlock(sb, b)], b % 8192, true)];
    forall c: nat | c < sb.size ensures Used(sb, t, c) <==> c < sb.first || c in owner[b := x] {
      UsedSet(sb, blocks, b, c);
      assert Used(sb, blocks, c) <==> c < sb.first || c in owner;
    }
  }

  lemma MarkedCleared(sb: Superblock, blocks: seq<Block>, owner: map<nat, Slot>, b: nat)
    requires |blocks| == sb.size && Marked(sb, blocks, owner) && sb.first <= b < sb.size
    ensures MapBlock(sb, b) < |blocks|
    ensures Marked(sb, blocks[MapBlock(sb, b) := SetBit(blocks[MapBlock(sb, b)], b % 8192, false)], owner - {b})
  {
    MapBlockRange(sb, b);
    var t := blocks[MapBlock(sb, b) := SetBit(blocks[MapBlock(sb, b)], b % 8192, false)];
    forall c: nat | c < sb.size ensures Used(sb, t, c) <==> c < sb.first || c in owner - {b} {
      UsedCleared(sb, blocks, b, c);
      assert Used(sb, blocks, c) <==> c < sb.first || c in owner;
    }
  }

  // ---------------------------------------------------------------- what files contain

  /** The k-th block of file i; blocks that are not there read as zero. */
  function BlockOf(blocks: seq<Block>, inodes: seq<Inode>, i: nat, k: nat): Block {
    var a := At(blocks, inodes, Data(i, k));
    if 0 < a < |blocks| then blocks[a] else Zero()
  }

  ghost predicate SameData(s: Fs, t: Fs) {
    forall i: nat, k: nat :: BlockOf(t.blocks, t.inodes, i, k) == BlockOf(s.blocks, s.inodes, i, k)
  }

  /** Block k of file i is now c; no other block of any file has changed. */
  ghost predicate OneBlock(s: Fs, t: Fs, i: nat, k: nat, c: Block) {
    && BlockOf(t.blocks, t.inodes, i, k) == c
    && forall j: nat, l: nat :: j != i || l != k ==>
      BlockOf(t.blocks, t.inodes, j, l) == BlockOf(s.blocks, s.inodes, j, l)
  }

  /** Types, link counts and sizes have not changed. */
  ghost predicate SameMeta(n: seq<Inode>, m: seq<Inode>) {
    |m| == |n| && forall i :: 0 <= i < |n| ==> m[i] == n[i].(addrs := m[i].addrs)
  }

  // ---------------------------------------------------------------- allocation

  /** balloc's effect on the disk: the bit is set and the block is cleared. */
  function Allocated(sb: Superblock, blocks: seq<Block>, r: nat): seq<Block>
    requires |blocks| == sb.size && r < sb.size
  {
    MapBlockRange(sb, r);
    blocks[MapBlock(sb, r) := SetBit(blocks[MapBlock(sb, r)], r % 8192, true)][r := Zero()]
  }

  /** A block number stored in a slot. */
  function PutInodes(inodes: seq<Inode>, x: Slot, r: nat): seq<Inode>
    requires x.i < |inodes|
  {
    var n := inodes[x.i];
    if x.Ind? then inodes[x.i := n.(addrs := n.addrs[NDIRECT := r])]
    else if x.k < NDIRECT then inodes[x.i := n.(addrs := n.addrs[x.k := r])]
    else inodes
  }

  function PutBlocks(blocks: seq<Block>, inodes: seq<Inode>, x: Slot, r: nat): seq<Block>
    requires x.i < |inodes|
  {
    var a := inodes[x.i].addrs[NDIRECT];
    if x.Data? && NDIRECT <= x.k < MAXFILE && a < |blocks| && r < U32 then
      blocks[a := PutEntry(blocks[a], x.k - NDIRECT, r)]
    else blocks
  }

  /** A slot that may be changed: a data slot beyond the direct ones needs the indirect block,
      which in turn comes first and goes last. */
  ghost predicate CanPut(blocks: seq<Block>, inodes: seq<Inode>, x: Slot) {
    && x.i < |inodes|
    && (x.Data? ==> x.k < MAXFILE && (x.k >= NDIRECT ==> inodes[x.i].addrs[NDIRECT] != 0))
    && (x.Ind? ==> forall k: nat :: k >= NDIRECT ==> At(blocks, inodes, Data(x.i, k)) == 0)
  }

  ghost predicate CanAttach(blocks: seq<Block>, inodes: seq<Inode>, x: Slot) {
    CanPut(blocks, inodes, x) && At(blocks, inodes, x) == 0
  }

  lemma IndInRange(sb: Superblock, blocks: seq<Block>, inodes: seq<Inode>, owner: map<nat, Slot>, i: nat)
    requires Owned(sb, blocks, inodes, owner) && i < |inodes| && inodes[i].addrs[NDIRECT] != 0
    ensures var a := inodes[i].addrs[NDIRECT]; sb.first <= a < sb.size && a in owner && owner[a] == Ind(i)
  {
    assert At(blocks, inodes, Ind(i)) == inodes[i].addrs[NDIRECT];
  }

  lemma IndDistinct(sb: Superblock, blocks: seq<Block>, inodes: seq<Inode>, owner: map<nat, Slot>, i: nat, j: nat)
    requires Owned(sb, blocks, inodes, owner) && i < |inodes| && j < |inodes| && i != j && inodes[i].addrs[NDIRECT] != 0
    ensures inodes[j].addrs[NDIRECT] != inodes[i].addrs[NDIRECT]
  {
    assert At(blocks, inodes, Ind(i)) == inodes[i].addrs[NDIRECT];
    assert At(blocks, inodes, Ind(j)) == inodes[j].addrs[NDIRECT];
  }

  lemma PutEntrySlot(blocks: seq<Block>, inodes: seq<Inode>, x: Slot, r: nat, y: Slot)
    requires x.Data? && x.i < |inodes| && NDIRECT <= x.k < MAXFILE && 0 < inodes[x.i].addrs[NDIRECT] < |blocks|
    requires r < U32
    requires y.i < |inodes| && y.i != x.i ==> inodes[y.i].addrs[NDIRECT] != inodes[x.i].addrs[NDIRECT]
    ensures PutInodes(inodes, x, r) == inodes
    ensures At(PutBlocks(blocks, inodes, x, r), inodes, y) == if y == x then r else At(blocks, inodes, y)
  {
    EntryPutAt(blocks, inodes, x.i, x.k, r, y);
  }

  lemma PutInodeSlot(blocks: seq<Block>, inodes: seq<Inode>, x: Slot, r: nat, y: Slot)
    requires x.i < |inodes| && (x.Ind? || x.k < NDIRECT) && r < |blocks| && (r == 0 || blocks[r] == Zero())
    requires x.Ind? && y.Data? && y.i == x.i && y.k >= NDIRECT ==> At(blocks, inodes, y) == 0
    ensures PutBlocks(blocks, inodes, x, r) == blocks
    ensures At(blocks, PutInodes(inodes, x, r), y) == if y == x then r else At(blocks, inodes, y)
  {
    if x.Ind? {
      if r != 0 && y.Data? && NDIRECT <= y.k < MAXFILE { NoEntry(blocks[r], y.k - NDIRECT); }
      IndPutAt(blocks, inodes, x.i, r, y);
    } else { DirectPutAt(blocks, inodes, x.i, x.k, r, y); }
  }

  lemma PutSlotAt(sb: Superblock, blocks: seq<Block>, inodes: seq<Inode>, owner: map<nat, Slot>, x: Slot, r: nat,
      y: Slot)
    requires |blocks| == sb.size && Owned(sb, blocks, inodes, owner) && CanPut(blocks, inodes, x)
    requires r == 0 || (r < sb.size && blocks[r] == Zero())
    ensures At(PutBlocks(blocks, inodes, x, r), PutInodes(inodes, x, r), y) == if y == x
      then r else At(blocks, inodes, y)
  {
    if x.Ind? || x.k < NDIRECT {
      PutInodeSlot(blocks, inodes, x, r, y);
    } else {
      IndInRange(sb, blocks, inodes, owner, x.i);
      if y.i < |inodes| && y.i != x.i { IndDistinct(sb, blocks, inodes, owner, x.i, y.i); }
      PutEntrySlot(blocks, inodes, x, r, y);
    }
  }

  lemma PutSlot(sb: Superblock, blocks: seq<Block>, inodes: seq<Inode>, owner: map<nat, Slot>, x: Slot, r: nat)
    requires |blocks| == sb.size && Owned(sb, blocks, inodes, owner) && CanPut(blocks, inodes, x)
    requires r == 0 || (r < sb.size && blocks[r] == Zero())
    ensures forall y: Slot ::
      At(PutBlocks(blocks, inodes, x, r), PutInodes(inodes, x, r), y) == if y == x then r else At(blocks, inodes, y)
  {
    forall y: Slot { PutSlotAt(sb, blocks, inodes, owner, x, r, y); }
  }

  /** Marking and clearing a free block concerns no slot. */
  lemma AllocatedAt(sb: Superblock, blocks: seq<Block>, inodes: seq<Inode>, owner: map<nat, Slot>, r: nat)
    requires |blocks| == sb.size && Owned(sb, blocks, inodes, owner) && sb.first <= r < sb.size && r !in owner
    ensures forall y: Slot :: At(Allocated(sb, blocks, r), inodes, y) == At(blocks, inodes, y)
    ensures Owned(sb, Allocated(sb, blocks, r), inodes, owner)
  {
    MapBlockRange(sb, r);
    var m := MapBlock(sb, r);
    var t := blocks[m := SetBit(blocks[m], r % 8192, true)];
    BlockPut(sb, blocks, inodes, owner, m, SetBit(blocks[m], r % 8192, true));
    OwnedSame(sb, blocks, inodes, owner, t, inodes);
    BlockPut(sb, t, inodes, owner, r, Zero());
    OwnedSame(sb, t, inodes, owner, t[r := Zero()], inodes);
  }

  lemma AllocatedMarked(sb: Superblock, blocks: seq<Block>, owner: map<nat, Slot>, r: nat, x: Slot)
    requires |blocks| == sb.size && Marked(sb, blocks, owner) && sb.first <= r < sb.size
    ensures Marked(sb, Allocated(sb, blocks, r), owner[r := x])
  {
    MapBlockRange(sb, r);
    MarkedSet(sb, blocks, owner, r, x);
    MarkedFrame(sb, blocks[MapBlock(sb, r) := SetBit(blocks[MapBlock(sb, r)], r % 8192, true)],
      Allocated(sb, blocks, r), owner[r := x]);
  }

  /** bmap's effect: a free block goes into an empty slot. */
  function Attach(sb: Superblock, s: Fs, x: Slot, r: nat): Fs
    requires |s.blocks| == sb.size && r < sb.size && x.i < |s.inodes|
  {
    s.(blocks := PutBlocks(Allocated(sb, s.blocks, r), s.inodes, x, r), inodes := PutInodes(s.inodes, x, r),
       owner := s.owner[r := x])
  }

  lemma PutMarked(sb: Superblock, blocks: seq<Block>, inodes: seq<Inode>, owner: map<nat, Slot>, f: map<nat, Slot>,
      x: Slot, r: nat)
    requires |blocks| == sb.size && Owned(sb, blocks, inodes, owner) && CanPut(blocks, inodes, x)
    requires Marked(sb, blocks, f)
    ensures Marked(sb, PutBlocks(blocks, inodes, x, r), f)
  {
    if inodes[x.i].addrs[NDIRECT] != 0 {
      IndInRange(sb, blocks, inodes, owner, x.i);
    }
    MarkedFrame(sb, blocks, PutBlocks(blocks, inodes, x, r), f);
  }

  lemma AttachCore(sb: Superblock, s: Fs, x: Slot, r: nat)
    requires Core(sb, s) && CanAttach(s.blocks, s.inodes, x) && sb.first <= r < sb.size && r !in s.owner
    ensures Core(sb, Attach(sb, s, x, r))
    ensures var t := Attach(sb, s, x, r);
      forall y: Slot :: At(t.blocks, t.inodes, y) == if y == x then r else At(s.blocks, s.inodes, y)
  {
    var b := Allocated(sb, s.blocks, r);
    AllocatedAt(sb, s.blocks, s.inodes, s.owner, r);
    AllocatedMarked(sb, s.blocks, s.owner, r, x);
    PutSlot(sb, b, s.inodes, s.owner, x, r);
    PutMarked(sb, b, s.inodes, s.owner, s.owner[r := x], x, r);
    OwnedAttach(sb, b, s.inodes, s.owner, PutBlocks(b, s.inodes, x, r), PutInodes(s.inodes, x, r), x, r);
  }

  /** No file notices: the new block is empty, and it was nobody's. */
  lemma AttachData(sb: Superblock, s: Fs, x: Slot, r: nat)
    requires Core(sb, s) && CanAttach(s.blocks, s.inodes, x) && sb.first <= r < sb.size && r !in s.owner
    ensures SameData(s, Attach(sb, s, x, r)) && SameMeta(s.inodes, Attach(sb, s, x, r).inodes)
  {
    AttachCore(sb, s, x, r);
    var t := Attach(sb, s, x, r);
    forall i: nat, k: nat ensures BlockOf(t.blocks, t.inodes, i, k) == BlockOf(s.blocks, s.inodes, i, k) {
      AttachBlock(sb, s, x, r, i, k);
    }
  }

  lemma AttachBlock(sb: Superblock, s: Fs, x: Slot, r: nat, i: nat, k: nat)
    requires Core(sb, s) && CanAttach(s.blocks, s.inodes, x) && sb.first <= r < sb.size && r !in s.owner
    requires var t := Attach(sb, s, x, r);
      At(t.blocks, t.inodes, Data(i, k)) == if Data(i, k) == x then r else At(s.blocks, s.inodes, Data(i, k))
    ensures var t := Attach(sb, s, x, r); BlockOf(t.blocks, t.inodes, i, k) == BlockOf(s.blocks, s.inodes, i, k)
  {
    MapBlockRange(sb, r);
    if s.inodes[x.i].addrs[NDIRECT] != 0 {
      IndInRange(sb, s.blocks, s.inodes, s.owner, x.i);
    }
  }

  // ---------------------------------------------------------------- release

  /** bfree's effect on the disk. */
  function Freed(sb: Superblock, blocks: seq<Block>, b: nat): seq<Block>
    requires |blocks| == sb.size && b < sb.size
  {
    MapBlockRange(sb, b);
    blocks[MapBlock(sb, b) := SetBit(blocks[MapBlock(sb, b)], b % 8192, false)]
  }

  /** The block of a slot is freed and the slot cleared. */
  function Detach(sb: Superblock, s: Fs, x: Slot): Fs
    requires |s.blocks| == sb.size && x.i < |s.inodes| && At(s.blocks, s.inodes, x) < sb.size
  {
    var b := At(s.blocks, s.inodes, x);
    s.(blocks := PutBlocks(Freed(sb, s.blocks, b), s.inodes, x, 0), inodes := PutInodes(s.inodes, x, 0),
       owner := s.owner - {b})
  }

  lemma FreedAt(sb: Superblock, blocks: seq<Block>, inodes: seq<Inode>, owner: map<nat, Slot>, b: nat)
    requires |blocks| == sb.size && Owned(sb, blocks, inodes, owner) && b < sb.size
    ensures forall y: Slot :: At(Freed(sb, blocks, b), inodes, y) == At(blocks, inodes, y)
    ensures Owned(sb, Freed(sb, blocks, b), inodes, owner)
  {
    MapBlockRange(sb, b);
    var m := MapBlock(sb, b);
    BlockPut(sb, blocks, inodes, owner, m, SetBit(blocks[m], b % 8192, false));
    OwnedSame(sb, blocks, inodes, owner, Freed(sb, blocks, b), inodes);
  }

  lemma DetachCore(sb: Superblock, s: Fs, x: Slot)
    requires Core(sb, s) && CanPut(s.blocks, s.inodes, x) && At(s.blocks, s.inodes, x) != 0
    ensures At(s.blocks, s.inodes, x) < sb.size && Used(sb, s.blocks, At(s.blocks, s.inodes, x))
    ensures Core(sb, Detach(sb, s, x))
    ensures var t := Detach(sb, s, x);
      forall y: Slot :: At(t.blocks, t.inodes, y) == if y == x then 0 else At(s.blocks, s.inodes, y)
  {
    var a := At(s.blocks, s.inodes, x);
    assert a in s.owner;
    var b := Freed(sb, s.blocks, a);
    FreedAt(sb, s.blocks, s.inodes, s.owner, a);
    MarkedCleared(sb, s.blocks, s.owner, a);
    PutSlot(sb, b, s.inodes, s.owner, x, 0);
    PutMarked(sb, b, s.inodes, s.owner, s.owner - {a}, x, 0);
    OwnedDetach(sb, b, s.inodes, s.owner, PutBlocks(b, s.inodes, x, 0), PutInodes(s.inodes, x, 0), x);
  }

  lemma DetachBlock(sb: Superblock, s: Fs, x: Slot, i: nat, k: nat)
    requires Core(sb, s) && CanPut(s.blocks, s.inodes, x) && 0 < At(s.blocks, s.inodes, x) < sb.size
    requires var t := Detach(sb, s, x);
      At(t.blocks, t.inodes, Data(i, k)) == if Data(i, k) == x then 0 else At(s.blocks, s.inodes, Data(i, k))
    ensures var t := Detach(sb, s, x);
      BlockOf(t.blocks, t.inodes, i, k) == if Data(i, k) == x then Zero() else BlockOf(s.blocks, s.inodes, i, k)
  {
    MapBlockRange(sb, At(s.blocks, s.inodes, x));
    if s.inodes[x.i].addrs[NDIRECT] != 0 {
      IndInRange(sb, s.blocks, s.inodes, s.owner, x.i);
    }
  }

  lemma DetachedBlock(sb: Superblock, s: Fs, x: Slot, i: nat, k: nat)
    requires Core(sb, s) && CanPut(s.blocks, s.inodes, x) && 0 < At(s.blocks, s.inodes, x) < sb.size
    ensures var t := Detach(sb, s, x);
      BlockOf(t.blocks, t.inodes, i, k) == if Data(i, k) == x then Zero() else BlockOf(s.blocks, s.inodes, i, k)
  {
    DetachCore(sb, s, x);
    DetachBlock(sb, s, x, i, k);
  }

  lemma DetachMeta(sb: Superblock, s: Fs, x: Slot)
    requires Core(sb, s) && CanPut(s.blocks, s.inodes, x) && 0 < At(s.blocks, s.inodes, x) < sb.size
    ensures SameMeta(s.inodes, Detach(sb, s, x).inodes)
  {
  }

  lemma DetachData(sb: Superblock, s: Fs, x: Slot)
    requires Core(sb, s) && CanPut(s.blocks, s.inodes, x) && 0 < At(s.blocks, s.inodes, x) < sb.size
    ensures SameMeta(s.inodes, Detach(sb, s, x).inodes)
    ensures if x.Data? then OneBlock(s, Detach(sb, s, x), x.i, x.k, Zero()) else SameData(s, Detach(sb, s, x))
  {
    DetachMeta(sb, s, x);
    var t := Detach(sb, s, x);
    forall i: nat, k: nat
      ensures BlockOf(t.blocks, t.inodes, i, k) == if Data(i, k) == x then Zero() else BlockOf(s.blocks, s.inodes, i, k)
    {
      DetachedBlock(sb, s, x, i, k);
    }
  }

  // ---------------------------------------------------------------- writing a block

  /** Writing a data block of a file. */
  lemma WriteCore(sb: Superblock, s: Fs, i: nat, k: nat, c: Block)
    requires Core(sb, s) && At(s.blocks, s.inodes, Data(i, k)) != 0
    ensures At(s.blocks, s.inodes, Data(i, k)) < sb.size
    ensures var t := s.(blocks := s.blocks[At(s.blocks, s.inodes, Data(i, k)) := c]);
      Core(sb, t) && forall y: Slot :: At(t.blocks, t.inodes, y) == At(s.blocks, s.inodes, y)
  {
    var a := At(s.blocks, s.inodes, Data(i, k));
    assert a in s.owner && s.owner[a] == Data(i, k);
    var t := s.(blocks := s.blocks[a := c]);
    BlockPut(sb, s.blocks, s.inodes, s.owner, a, c);
    OwnedSame(sb, s.blocks, s.inodes, s.owner, t.blocks, s.inodes);
    MarkedFrame(sb, s.blocks, t.blocks, s.owner);
  }

  lemma WriteData(sb: Superblock, s: Fs, i: nat, k: nat, c: Block)
    requires Core(sb, s) && 0 < At(s.blocks, s.inodes, Data(i, k)) < sb.size
    ensures OneBlock(s, s.(blocks := s.blocks[At(s.blocks, s.inodes, Data(i, k)) := c]), i, k, c)
  {
    WriteCore(sb, s, i, k, c);
    var a := At(s.blocks, s.inodes, Data(i, k));
    var t := s.(blocks := s.blocks[a := c]);
    forall j: nat, l: nat | j != i || l != k
      ensures BlockOf(t.blocks, t.inodes, j, l) == BlockOf(s.blocks, s.inodes, j, l)
    {
      assert At(t.blocks, t.inodes, Data(j, l)) == At(s.blocks, s.inodes, Data(j, l));
    }
  }

  /** What is in a block without an owner does not matter. */
  lemma LooseBlock(sb: Superblock, s: Fs, a: nat, c: Block)
    requires Core(sb, s) && sb.first <= a < sb.size && a !in s.owner
    ensures var t := s.(blocks := s.blocks[a := c]);
      Core(sb, t) && SameData(s, t) && forall y: Slot :: At(t.blocks, t.inodes, y) == At(s.blocks, s.inodes, y)
  {
    var t := s.(blocks := s.blocks[a := c]);
    BlockPut(sb, s.blocks, s.inodes, s.owner, a, c);
    OwnedSame(sb, s.blocks, s.inodes, s.owner, t.blocks, s.inodes);
    MarkedFrame(sb, s.blocks, t.blocks, s.owner);
    forall i: nat, k: nat ensures BlockOf(t.blocks, t.inodes, i, k) == BlockOf(s.blocks, s.inodes, i, k) {
      assert At(t.blocks, t.inodes, Data(i, k)) == At(s.blocks, s.inodes, Data(i, k));
    }
  }
}
