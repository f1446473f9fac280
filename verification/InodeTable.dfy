/** The in-memory inode table and the end of an inode's life: iget, ilock, iput and ireclaim of
  kernel/fs.c.  A valid entry in use holds a copy that agrees with the inode on disk, since
  iupdate follows every change. */
module InodeTable {
  import opened Basics
  import opened DiskFormat
  import opened FileSystem
  import opened FileCode
  import opened FileOps

  datatype Ent = Ent(inum: nat, ref: nat, valid: bool, copy: Inode)

  /** No inode has two entries in use. */
  ghost predicate Distinct(table: seq<Ent>) {
    forall a, b :: 0 <= a < b < |table| && table[a].ref > 0 && table[b].ref > 0 ==> table[a].inum != table[b].inum
  }

  ghost predicate Fresh(e: Ent, inodes: seq<Inode>) {
    e.ref > 0 && e.valid ==> e.inum < |inodes| && e.copy == inodes[e.inum]
  }

  /** What the table holds of the disk is what the disk holds. */
  ghost predicate Loaded(table: seq<Ent>, inodes: seq<Inode>) {
    forall x :: 0 <= x < |table| ==> Fresh(table[x], inodes)
  }

  /** An inode that iput has given back. */
  function Retired(n: Inode): Inode {
    n.(typ := 0, size := 0, addrs := seq(NDIRECT + 1, _ => 0))
  }

  /** The inodes in gone have been given back with all their blocks; everything else is as it
      was. */
  ghost predicate Reclaimed(s: Fs, t: Fs, gone: set<nat>) {
    && |t.blocks| == |s.blocks| && |t.inodes| == |s.inodes|
    && (forall i :: 0 <= i < |s.inodes| ==> t.inodes[i] == if i in gone then Retired(s.inodes[i]) else s.inodes[i])
    && (forall y: Slot :: At(t.blocks, t.inodes, y) == if y.i in gone then 0 else At(s.blocks, s.inodes, y))
    && (forall j: nat, k: nat ::
      BlockOf(t.blocks, t.inodes, j, k) == if j in gone then Zero() else BlockOf(s.blocks, s.inodes, j, k))
  }

  lemma ReclaimedNone(s: Fs)
    ensures Reclaimed(s, s, {})
  {
  }

  lemma ReclaimedNext(s: Fs, t: Fs, u: Fs, gone: set<nat>, i: nat)
    requires Reclaimed(s, t, gone) && Reclaimed(t, u, {i}) && i !in gone
    ensures Reclaimed(s, u, gone + {i})
  {
  }

  /** The slots of an inode determine its block addresses. */
  lemma AddrsFromSlots(b: seq<Block>, n: seq<Inode>, c: seq<Block>, m: seq<Inode>, i: nat)
    requires i < |n| == |m|
    requires forall y: Slot :: y.i == i ==> At(c, m, y) == At(b, n, y)
    ensures m[i].addrs == n[i].addrs
  {
    forall k | 0 <= k <= NDIRECT ensures m[i].addrs[k] == n[i].addrs[k] {
      var y := if k < NDIRECT then Data(i, k) else Ind(i);
      assert At(c, m, y) == At(b, n, y);
    }
  }

  lemma NoAddrs(c: seq<Block>, m: seq<Inode>, i: nat)
    requires i < |m| && forall y: Slot :: y.i == i ==> At(c, m, y) == 0
    ensures m[i].addrs == seq(NDIRECT + 1, _ => 0)
  {
    forall k | 0 <= k <= NDIRECT ensures m[i].addrs[k] == 0 {
      var y := if k < NDIRECT then Data(i, k) else Ind(i);
      assert At(c, m, y) == 0;
    }
  }

  /** itrunc, and the type set to 0. */
  function Untyped(sb: Superblock, s: Fs, i: nat): Fs
    requires i < |s.inodes|
  {
    s.(inodes := s.inodes[i := s.inodes[i].(typ := 0)], logged := s.logged + {InodeBlock(sb, i)})
  }

  lemma UntypedAt(sb: Superblock, s: Fs, i: nat)
    requires i < |s.inodes|
    ensures forall y: Slot :: At(s.blocks, Untyped(sb, s, i).inodes, y) == At(s.blocks, s.inodes, y)
    ensures forall j: nat, k: nat ::
      BlockOf(s.blocks, Untyped(sb, s, i).inodes, j, k) == BlockOf(s.blocks, s.inodes, j, k)
  {
    var n := Untyped(sb, s, i).inodes;
    forall j: nat, k: nat ensures BlockOf(s.blocks, n, j, k) == BlockOf(s.blocks, s.inodes, j, k) {
      assert At(s.blocks, n, Data(j, k)) == At(s.blocks, s.inodes, Data(j, k));
    }
  }

  lemma UntypedInv(sb: Superblock, s: Fs, i: nat)
    requires Inv(sb, s) && i < |s.inodes| && s.inodes[i].size == 0
    requires forall y: Slot :: y.i == i ==> At(s.blocks, s.inodes, y) == 0
    ensures Inv(sb, Untyped(sb, s, i))
  {
    var u := Untyped(sb, s, i);
    UntypedAt(sb, s, i);
    OwnedSame(sb, s.blocks, s.inodes, s.owner, s.blocks, u.inodes);
    forall j: nat ensures SizeOk(u, j) { assert SizeOk(s, j); }
    forall j: nat, k: nat | j < |u.inodes| && k * 1024 < u.inodes[j].size
      ensures At(u.blocks, u.inodes, Data(j, k)) != 0
    {
      assert At(s.blocks, s.inodes, Data(j, k)) != 0;
    }
    forall x: Slot | x.i < |u.inodes| && u.inodes[x.i].typ == 0 ensures At(u.blocks, u.inodes, x) == 0 {
    }
  }

  /** Truncating and untyping an inode without links gives it back. */
  lemma RetiredFrom(sb: Superblock, s: Fs, t: Fs, i: nat)
    requires i < |s.inodes| && |t.blocks| == |s.blocks| && MetaExcept(s.inodes, t.inodes, i) && t.inodes[i].size == 0
    requires forall y: Slot :: At(t.blocks, t.inodes, y) == if y.i == i then 0 else At(s.blocks, s.inodes, y)
    requires forall j: nat, k: nat :: j != i ==> BlockOf(t.blocks, t.inodes, j, k) == BlockOf(s.blocks, s.inodes, j, k)
    ensures Reclaimed(s, Untyped(sb, t, i), {i})
  {
    var u := Untyped(sb, t, i);
    UntypedAt(sb, t, i);
    forall j | 0 <= j < |s.inodes| ensures u.inodes[j] == if j == i then Retired(s.inodes[j]) else s.inodes[j] {
      if j == i {
        NoAddrs(t.blocks, t.inodes, i);
      } else {
        AddrsFromSlots(s.blocks, s.inodes, t.blocks, t.inodes, j);
      }
    }
    forall k: nat ensures BlockOf(u.blocks, u.inodes, i, k) == Zero() {
      assert At(t.blocks, t.inodes, Data(i, k)) == 0;
    }
  }

  /** Block b is in use unless it was free or belonged to an inode in gone. */
  ghost predicate FreedWith(sb: Superblock, s: Fs, t: Fs, gone: set<nat>, b: nat)
    requires b < sb.size
  {
    Used(sb, t.blocks, b) <==> Used(sb, s.blocks, b) && !(b in s.owner && s.owner[b].i in gone)
  }

  /** The blocks that have become free are exactly those of the inodes in gone. */
  lemma ReclaimedBlocks(sb: Superblock, s: Fs, t: Fs, gone: set<nat>, b: nat)
    requires Core(sb, s) && Core(sb, t) && Reclaimed(s, t, gone) && b < sb.size
    ensures FreedWith(sb, s, t, gone, b)
  {
    if b in t.owner { assert At(s.blocks, s.inodes, t.owner[b]) == b; }
    if b in s.owner && s.owner[b].i !in gone { assert At(t.blocks, t.inodes, s.owner[b]) == b; }
  }

  /** Inodes that stay keep their contents. */
  lemma ReclaimedContents(s: Fs, t: Fs, gone: set<nat>, i: nat)
    requires Reclaimed(s, t, gone) && i !in gone
    ensures Contents(t, i) == Contents(s, i)
  {
    if i < |s.inodes| {
      forall p: nat | p < s.inodes[i].size ensures Contents(t, i)[p] == Contents(s, i)[p] {
        assert BlockOf(t.blocks, t.inodes, i, p / 1024) == BlockOf(s.blocks, s.inodes, i, p / 1024);
      }
    }
  }

  /** gone are the allocated inodes without a name among the numbers in [1, n). */
  ghost predicate AreOrphans(inodes: seq<Inode>, n: nat, gone: set<nat>) {
    forall i: nat :: i in gone <==> 1 <= i < n && i < |inodes| && inodes[i].typ != 0 && inodes[i].nlink == 0
  }

  class Itable {
    const f: FileSys
    var table: seq<Ent>

    ghost predicate Valid()
      reads this, f
    {
      Distinct(table) && Loaded(table, f.s.inodes)
    }

    constructor (f: FileSys, n: nat)
      ensures this.f == f && |table| == n && Valid() && forall x :: 0 <= x < n ==> table[x].ref == 0
    {
      this.f := f;
      table := seq(n, _ => Ent(0, 0, false, Inode(0, 0, 0, seq(NDIRECT + 1, _ => 0))));
    }

    /** iget: the entry in use for this inode, or the first unused one.  None stands for the
        panic "iget: no inodes". */
    method Iget(inum: nat) returns (r: Option<nat>)
      requires Valid()
      modifies `table
      ensures Valid() && |table| == |old(table)|
      ensures r == None ==>
        table == old(table) && forall x :: 0 <= x < |table| ==> table[x].ref > 0 && table[x].inum != inum
      ensures r.Some? ==> r.value < |table| && table[r.value].inum == inum && table[r.value].ref > 0
      ensures r.Some? ==> forall x :: 0 <= x < |table| && x != r.value ==> table[x] == old(table)[x]
      ensures r.Some? ==> var e := old(table)[r.value];
        table[r.value] == if e.ref > 0 then e.(ref := e.ref + 1) else e.(inum := inum, ref := 1, valid := false)
    {
      var empty: Option<nat>, x := None, 0;
      while x < |table|
        invariant 0 <= x <= |table| && table == old(table)
        invariant forall y :: 0 <= y < x ==> !(table[y].ref > 0 && table[y].inum == inum)
        invariant empty == None ==> forall y :: 0 <= y < x ==> table[y].ref > 0
        invariant empty.Some? ==> empty.value < x && table[empty.value].ref == 0
      {
        if table[x].ref > 0 && table[x].inum == inum {
          table := table[x := table[x].(ref := table[x].ref + 1)];
          return Some(x);
        }
        if empty == None && table[x].ref == 0 {
          empty := Some(x);
        }
        x := x + 1;
      }
      if empty.Some? {
        table := table[empty.value := table[empty.value].(inum := inum, ref := 1, valid := false)];
      }
      r := empty;
    }

    /** ilock of an entry whose inode is in use: the copy is the inode on disk, which is read
        only if the entry is not valid. */
    method Ilock(x: nat)
      requires Valid() && x < |table| && table[x].ref > 0 && table[x].inum < |f.s.inodes|
      requires f.s.inodes[table[x].inum].typ != 0
      modifies `table
      ensures Valid() && (old(table)[x].valid ==> table == old(table))
      ensures table == old(table)[x := old(table)[x].(valid := true, copy := f.s.inodes[old(table)[x].inum])]
    {
      assert Fresh(table[x], f.s.inodes);
      if !table[x].valid {
        table := table[x := table[x].(valid := true, copy := f.s.inodes[table[x].inum])];
      }
    }

    /** iput: the last reference to an inode without links gives the inode back. */
    method Iput(x: nat)
      requires Inv(f.sb, f.s) && Valid() && x < |table| && table[x].ref > 0
      modifies this, f`s
      ensures Inv(f.sb, f.s) && Valid() && |table| == |old(table)|
      ensures forall y :: 0 <= y < |table| && y != x ==> table[y] == old(table)[y]
      ensures table[x].inum == old(table)[x].inum && table[x].ref == old(table)[x].ref - 1
      ensures var e := old(table)[x];
        if e.ref == 1 && e.valid && e.copy.nlink == 0 then
          e.copy == old(f.s.inodes)[e.inum] && Reclaimed(old(f.s), f.s, {e.inum}) && !table[x].valid
        else f.s == old(f.s) && table[x].valid == e.valid
    {
      var e := table[x];
      assert Fresh(e, f.s.inodes);
      if e.ref == 1 && e.valid && e.copy.nlink == 0 {
        Itrunc(f, e.inum);
        RetiredFrom(f.sb, old(f.s), f.s, e.inum);
        UntypedInv(f.sb, f.s, e.inum);
        f.s := Untyped(f.sb, f.s, e.inum);
        table := table[x := table[x].(valid := false)];
      }
      table := table[x := table[x].(ref := table[x].ref - 1)];
    }

    /** One turn of ireclaim's loop, which started from s0. */
    method ReclaimOne(inum: nat, ghost s0: Fs, ghost was: set<nat>) returns (ghost gone: set<nat>)
      requires Inv(f.sb, f.s) && Valid() && Idle(table) && 1 <= inum < |f.s.inodes|
      requires Reclaimed(s0, f.s, was) && AreOrphans(s0.inodes, inum, was)
      modifies this, f`s
      ensures Inv(f.sb, f.s) && Valid() && Idle(table)
      ensures Reclaimed(s0, f.s, gone) && AreOrphans(s0.inodes, inum + 1, gone)
    {
      gone := was;
      if f.s.inodes[inum].typ != 0 && f.s.inodes[inum].nlink == 0 {
        assert table[0].ref == 0;
        var x := Iget(inum);
        Ilock(x.value);
        Iput(x.value);
        ReclaimedNext(s0, old(f.s), f.s, was, inum);
        gone := was + {inum};
      }
    }

    /** ireclaim, at boot: exactly the orphans are given back, exactly their blocks become free,
        and every other file keeps its contents. */
    method Ireclaim() returns (ghost gone: set<nat>)
      requires Inv(f.sb, f.s) && Valid() && Idle(table)
      modifies this, f`s
      ensures Inv(f.sb, f.s) && Valid() && Idle(table)
      ensures forall i: nat :: i in gone <==>
        1 <= i < |old(f.s.inodes)| && old(f.s.inodes)[i].typ != 0 && old(f.s.inodes)[i].nlink == 0
      ensures forall i :: 1 <= i < |f.s.inodes| && f.s.inodes[i].typ != 0 ==> f.s.inodes[i].nlink != 0
      ensures Reclaimed(old(f.s), f.s, gone)
      ensures forall b: nat :: b < f.sb.size ==>
        (Used(f.sb, f.s.blocks, b) <==>
          Used(f.sb, old(f.s.blocks), b) && !(b in old(f.s.owner) && old(f.s.owner)[b].i in gone))
      ensures forall i: nat :: i !in gone ==> Contents(f.s, i) == Contents(old(f.s), i)
    {
      var inum := 1;
      gone := {};
      ReclaimedNone(f.s);
      while inum < f.sb.ninodes
        invariant 1 <= inum && Inv(f.sb, f.s) && Valid() && Idle(table) && (inum <= f.sb.ninodes || inum == 1)
        invariant Reclaimed(old(f.s), f.s, gone) && AreOrphans(old(f.s.inodes), inum, gone)
      {
        gone := ReclaimOne(inum, old(f.s), gone);
        inum := inum + 1;
      }
      forall b: nat | b < f.sb.size ensures FreedWith(f.sb, old(f.s), f.s, gone, b) {
        ReclaimedBlocks(f.sb, old(f.s), f.s, gone, b);
      }
      forall i: nat | i !in gone ensures Contents(f.s, i) == Contents(old(f.s), i) {
        ReclaimedContents(old(f.s), f.s, gone, i);
      }
    }
  }

  /** Nobody uses the table, and it has room. */
  ghost predicate Idle(table: seq<Ent>) {
    table != [] && forall x :: 0 <= x < |table| ==> table[x].ref == 0
  }
}
