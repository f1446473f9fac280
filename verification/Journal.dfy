/** File-system operations through the log: filewrite and itrunc with begin_op, log_write and
  end_op around and inside them (kernel/file.c, kernel/fs.c, kernel/log.c), by one process at a
  time.  Whatever disk write is the last one before the power fails, recovery finds a consistent
  file system as it was between two operations. */
module Journal {
  import opened Basics
  import opened DiskFormat
  import opened FileSystem
  import opened FileCode
  import opened FileOps
  import opened FileWrite
  import opened DiskImage
  import TL = TransactionLog
  import LD = LogDevice

  /** Between operations the disk, seen through the log, is that of the file system s. */
  ghost predicate Synced(l: TL.State, sb: Superblock, s: Fs) {
    && l.phase == TL.Ready && l.lh == [] && l.active == map[] && LD.Quiescent(l)
    && |l.disk| == sb.size && LogBelow(sb, l.start) && TL.Abstract(l).current == Image(sb, l.start, s)
  }

  // ---------------------------------------------------------------- one operation

  /** The image of s with the blocks in done as in t. */
  ghost function Mixed(sb: Superblock, start: nat, s: Fs, t: Fs, done: set<nat>): map<nat, TL.Block> {
    map b | 0 <= b < sb.size && TL.Home(sb.size, start, b) :: ImageBlock(sb, if b in done then t else s, b)
  }

  lemma MixedNext(sb: Superblock, start: nat, s: Fs, t: Fs, done: set<nat>, b: nat)
    requires b < sb.size && TL.Home(sb.size, start, b)
    ensures Mixed(sb, start, s, t, done)[b := ImageBlock(sb, t, b)] == Mixed(sb, start, s, t, done + {b})
  {
  }

  lemma MixedAll(sb: Superblock, start: nat, s: Fs, t: Fs, i: nat)
    requires Operation(sb, s, t, i)
    ensures Mixed(sb, start, s, t, {}) == Image(sb, start, s)
    ensures Mixed(sb, start, s, t, t.logged) == Image(sb, start, t)
  {
    forall b | 0 <= b < sb.size && b !in t.logged ensures ImageBlock(sb, t, b) == ImageBlock(sb, s, b) {
      ImageKept(sb, s, t, i, b);
    }
  }

  lemma LoggedIsHome(sb: Superblock, start: nat, s: Fs, t: Fs, i: nat, b: nat)
    requires Operation(sb, s, t, i) && LogBelow(sb, start) && b in t.logged
    ensures b < sb.size && TL.Home(sb.size, start, b)
  {
    assert LoggedAt(sb, s.(logged := {}), t, b);
  }

  /** The operation of process p has logged the blocks in done. */
  ghost predicate Underway(l: TL.State, sb: Superblock, p: TL.Pid, s: Fs, t: Fs, done: set<nat>) {
    && l.phase == TL.Ready && LD.Quiescent(l) && |l.disk| == sb.size && LogBelow(sb, l.start)
    && l.active == map[p := done] && TL.Elements(l.lh) == done
    && TL.Abstract(l).current == Mixed(sb, l.start, s, t, done)
  }

  lemma FewBusy(l: TL.Consistent)
    requires LD.Quiescent(l) && l.phase == TL.Ready
    ensures |TL.Busy(l)| <= |TL.Elements(l.lh)|
  {
    forall b | b in TL.Busy(l) ensures b in TL.Elements(l.lh) {}
    SubsetSize(TL.Busy(l), TL.Elements(l.lh));
  }

  lemma CanEnd(l: TL.Consistent, p: TL.Pid)
    requires LD.Quiescent(l) && p in l.active
    ensures TL.CanEndOp(l, p)
  {
    forall b | b in l.cache ensures l.cache[b].holder == None { LD.UnusedBuffer(l, b); }
  }

  ghost predicate SameDurable(l: TL.State, k: TL.State) {
    k.start == l.start && TL.Abstract(k).durable == TL.Abstract(l).durable
  }

  method Start(l: LD.Log, p: TL.Pid, sb: Superblock, ghost s: Fs, ghost t: Fs, ghost i: nat)
    requires Synced(l.s, sb, s) && Operation(sb, s, t, i)
    modifies l
    ensures Underway(l.s, sb, p, s, t, {}) && l.history == old(l.history) && SameDurable(old(l.s), l.s)
  {
    TL.StepBeginOp(l.s, p);
    var started := l.BeginOp(p);
    MixedAll(sb, l.s.start, s, t, i);
  }

  lemma OneMoreLogged(lh: seq<nat>, b: nat, more: seq<nat>)
    requires more == if b in lh then lh else lh + [b]
    ensures TL.Elements(more) == TL.Elements(lh) + {b}
  {
  }

  lemma OneActive(p: TL.Pid, done: set<nat>, more: set<nat>)
    ensures map[p := done][p := more] == map[p := more]
  {
  }

  lemma UnderwayNext(l: TL.State, k: TL.State, sb: Superblock, p: TL.Pid, s: Fs, t: Fs, done: set<nat>, b: nat)
    requires Underway(l, sb, p, s, t, done) && b < sb.size && TL.Home(sb.size, l.start, b)
    requires LD.Quiescent(k) && LD.SameDisk(l, k) && LD.Logs(l, k, p, b)
    requires TL.Abstract(k).current == TL.Abstract(l).current[b := ImageBlock(sb, t, b)]
    ensures Underway(k, sb, p, s, t, done + {b})
  {
    OneMoreLogged(l.lh, b, k.lh);
    MixedNext(sb, l.start, s, t, done, b);
    OneActive(p, done, done + {b});
  }

  /** One block of the operation. */
  method LogOne(l: LD.Log, p: TL.Pid, sb: Superblock, t: Fs, b: nat, ghost s: Fs, ghost i: nat, ghost done: set<nat>)
    requires Underway(l.s, sb, p, s, t, done) && Operation(sb, s, t, i) && b in t.logged && b !in done
    requires |done| < MAXOPBLOCKS
    modifies l
    ensures Underway(l.s, sb, p, s, t, done + {b}) && l.history == old(l.history) && SameDurable(old(l.s), l.s)
  {
    LoggedIsHome(sb, l.s.start, s, t, i, b);
    FewBusy(l.s);
    l.Put(p, b, ImageBlock(sb, t, b));
    UnderwayNext(old(l.s), l.s, sb, p, s, t, done, b);
  }

  /** The rest of them. */
  method LogRest(l: LD.Log, p: TL.Pid, sb: Superblock, t: Fs, todo: set<nat>, ghost s: Fs, ghost i: nat,
      ghost done: set<nat>)
    requires Underway(l.s, sb, p, s, t, done) && Operation(sb, s, t, i) && |t.logged| <= MAXOPBLOCKS
    requires Rest(todo, done, t.logged)
    modifies l
    ensures Underway(l.s, sb, p, s, t, t.logged) && l.history == old(l.history) && SameDurable(old(l.s), l.s)
    decreases |todo|
  {
    if todo == {} {
      assert done == t.logged;
    } else {
      var b :| b in todo;
      RestNext(todo, done, t.logged, b);
      LogOne(l, p, sb, t, b, s, i, done);
      LogRest(l, p, sb, t, todo - {b}, s, i, done + {b});
    }
  }

  predicate Rest(todo: set<nat>, done: set<nat>, all: set<nat>) {
    done <= all && todo == all - done
  }

  lemma RestNext(todo: set<nat>, done: set<nat>, all: set<nat>, b: nat)
    requires Rest(todo, done, all) && b in todo
    ensures |done| < |all| && b in all && b !in done && Rest(todo - {b}, done + {b}, all)
  {
    SubsetSize(done + {b}, all);
  }

  /** Up to the m-th disk, recovery yields the first file system; from there on, the second. */
  ghost predicate Switches(history: seq<TL.Disk>, start: nat, from: nat, m: nat, sb: Superblock, s: Fs, t: Fs) {
    && from <= m <= |history|
    && (forall k :: from <= k < m ==> LD.Yields(history[k], start, Image(sb, start, s)))
    && (forall k :: m <= k < |history| ==> LD.Yields(history[k], start, Image(sb, start, t)))
  }

  /** end_op. */
  method End(l: LD.Log, p: TL.Pid, sb: Superblock, ghost t: Fs, ghost s: Fs, ghost i: nat) returns (ghost m: nat)
    requires Underway(l.s, sb, p, s, t, t.logged) && Operation(sb, s, t, i) && |t.logged| <= MAXOPBLOCKS
    requires TL.Abstract(l.s).durable == Image(sb, l.s.start, s)
    modifies l
    ensures Synced(l.s, sb, t) && l.s.start == old(l.s.start) && old(l.history) <= l.history
    ensures Switches(l.history, l.s.start, |old(l.history)|, m, sb, s, t)
  {
    FewBusy(l.s);
    CanEnd(l.s, p);
    MixedAll(sb, l.s.start, s, t, i);
    var ok;
    ok, m := l.EndOp(p);
  }

  /** Between operations nothing is waiting in the log. */
  lemma SyncedDurable(l: TL.Consistent, sb: Superblock, s: Fs)
    requires Synced(l, sb, s)
    ensures TL.Abstract(l).durable == Image(sb, l.start, s)
  {
    LD.NothingLogged(l);
  }

  /** The operation that takes s to t, from begin_op to end_op. */
  method Perform(l: LD.Log, p: TL.Pid, sb: Superblock, t: Fs, ghost s: Fs, ghost i: nat) returns (ghost m: nat)
    requires Synced(l.s, sb, s) && Operation(sb, s, t, i) && |t.logged| <= MAXOPBLOCKS
    modifies l
    ensures Synced(l.s, sb, t) && l.s.start == old(l.s.start) && old(l.history) <= l.history
    ensures Switches(l.history, l.s.start, |old(l.history)|, m, sb, s, t)
  {
    SyncedDurable(l.s, sb, s);
    Start(l, p, sb, s, t, i);
    LogRest(l, p, sb, t, t.logged, s, i, {});
    m := End(l, p, sb, t, s, i);
  }

  // ---------------------------------------------------------------- filewrite

  /** Recovery from this disk finds t, which is consistent and in which the first n bytes of src
      have been written. */
  ghost predicate FindsAt(d: TL.Disk, start: nat, sb: Superblock, s0: Fs, ip: nat, off: nat, src: seq<Byte>, t: Fs,
      n: nat) {
    n <= |src| && Inv(sb, t) && Progress(s0, t, ip, off, src[..n]) && LD.Yields(d, start, Image(sb, start, t))
  }

  /** Recovery finds a file system as filewrite leaves it between two of its operations. */
  ghost predicate Finds(d: TL.Disk, start: nat, sb: Superblock, s0: Fs, ip: nat, off: nat, src: seq<Byte>) {
    exists t: Fs, n: nat :: FindsAt(d, start, sb, s0, ip, off, src, t, n)
  }

  ghost predicate AllFind(history: seq<TL.Disk>, from: nat, start: nat, sb: Superblock, s0: Fs, ip: nat, off: nat,
      src: seq<Byte>) {
    forall k :: from <= k < |history| ==> Finds(history[k], start, sb, s0, ip, off, src)
  }

  lemma AllFindNext(was: seq<TL.Disk>, history: seq<TL.Disk>, from: nat, m: nat, start: nat, sb: Superblock, s0: Fs,
      ip: nat, off: nat, src: seq<Byte>, s: Fs, n: nat, t: Fs, n': nat)
    requires AllFind(was, from, start, sb, s0, ip, off, src) && was <= history
    requires Switches(history, start, |was|, m, sb, s, t) && n <= |src| && n' <= |src|
    requires Inv(sb, s) && Progress(s0, s, ip, off, src[..n]) && Inv(sb, t) && Progress(s0, t, ip, off, src[..n'])
    ensures AllFind(history, from, start, sb, s0, ip, off, src)
  {
    forall k | from <= k < |history| ensures Finds(history[k], start, sb, s0, ip, off, src) {
      if k < |was| {
        assert history[k] == was[k];
      } else if k < m {
        assert FindsAt(history[k], start, sb, s0, ip, off, src, s, n);
      } else {
        assert FindsAt(history[k], start, sb, s0, ip, off, src, t, n');
      }
    }
  }

  /** The free map takes at most four blocks, so that an operation fits its reservation. */
  predicate SmallMap(sb: Superblock) {
    sb.first - sb.bmapstart <= 4
  }

  /** One turn of filewrite with its transaction. */
  method TurnLogged(l: LD.Log, p: TL.Pid, f: FileSys, o: OpenFile, src: seq<Byte>, done: nat, ghost s0: Fs,
      ghost off: nat, ghost from: nat)
    returns (ok: bool, next: nat)
    requires SmallMap(f.sb) && Usable(f.sb, f.s, o.ip) && done < |src| && Progress(s0, f.s, o.ip, off, src[..done])
    requires o.off == off + done && o.off < U32 && Synced(l.s, f.sb, f.s)
    requires AllFind(l.history, from, l.s.start, f.sb, s0, o.ip, off, src)
    modifies l, f`s, o`off
    ensures Usable(f.sb, f.s, o.ip) && Synced(l.s, f.sb, f.s) && l.s.start == old(l.s.start)
    ensures old(l.history) <= l.history && AllFind(l.history, from, l.s.start, f.sb, s0, o.ip, off, src)
    ensures done <= next <= |src| && Progress(s0, f.s, o.ip, off, src[..next]) && o.off == off + next && o.off < U32
    ensures if ok then done < next else Stopped(f.sb, s0, f.s, o.ip, off, done, |src|) && next < |src|
  {
    ok, next := Turn(f, o, src, done, s0, off);
    ghost var m := Perform(l, p, f.sb, f.s, old(f.s), o.ip);
    AllFindNext(old(l.history), l.history, from, m, l.s.start, f.sb, s0, o.ip, off, src, old(f.s), done, f.s, next);
  }

  /** filewrite through the log.  Whenever the power fails, recovery finds a consistent file
      system in which a prefix of the bytes has been written: as many as some number of turns
      write. */
  method FilewriteLogged(l: LD.Log, p: TL.Pid, f: FileSys, o: OpenFile, src: seq<Byte>)
    returns (r: int, ghost written: nat)
    requires SmallMap(f.sb) && Usable(f.sb, f.s, o.ip) && o.off < U32 && Synced(l.s, f.sb, f.s)
    modifies l, f`s, o`off
    ensures Usable(f.sb, f.s, o.ip) && Synced(l.s, f.sb, f.s) && l.s.start == old(l.s.start)
    ensures written <= |src| && Progress(old(f.s), f.s, o.ip, old(o.off), src[..written])
    ensures o.off == old(o.off) + written && r == if written == |src| then |src| else -1
    ensures r == -1 ==>
      exists done: nat :: done <= written && Stopped(f.sb, old(f.s), f.s, o.ip, old(o.off), done, |src|)
    ensures old(l.history) <= l.history
    ensures AllFind(l.history, |old(l.history)|, l.s.start, f.sb, old(f.s), o.ip, old(o.off), src)
  {
    var i := 0;
    written := 0;
    ProgressNone(f.s, o.ip, o.off);
    while i < |src|
      invariant 0 <= i <= |src| && written == i && Usable(f.sb, f.s, o.ip) && Synced(l.s, f.sb, f.s)
      invariant l.s.start == old(l.s.start) && old(l.history) <= l.history
      invariant Progress(old(f.s), f.s, o.ip, old(o.off), src[..i]) && o.off == old(o.off) + i && o.off < U32
      invariant AllFind(l.history, |old(l.history)|, l.s.start, f.sb, old(f.s), o.ip, old(o.off), src)
    {
      var ok;
      ghost var done := i;
      ok, i := TurnLogged(l, p, f, o, src, i, old(f.s), old(o.off), |old(l.history)|);
      written := i;
      if !ok {
        assert Stopped(f.sb, old(f.s), f.s, o.ip, old(o.off), done, |src|);
        return -1, written;
      }
    }
    r := |src|;
  }

  // ---------------------------------------------------------------- itrunc and recovery

  /** itrunc through the log: recovery finds the file system with the file as it was, or with the
      file empty and its blocks free, and after a certain disk write always the latter. */
  method ItruncLogged(l: LD.Log, p: TL.Pid, f: FileSys, i: nat) returns (ghost m: nat)
    requires SmallMap(f.sb) && Inv(f.sb, f.s) && i < |f.s.inodes| && Synced(l.s, f.sb, f.s)
    modifies l, f`s
    ensures Inv(f.sb, f.s) && Synced(l.s, f.sb, f.s) && l.s.start == old(l.s.start) && old(l.history) <= l.history
    ensures Switches(l.history, l.s.start, |old(l.history)|, m, f.sb, old(f.s), f.s)
    ensures MetaExcept(old(f.s.inodes), f.s.inodes, i) && f.s.inodes[i].size == 0
    ensures forall b: nat :: b < f.sb.size ==>
      (Used(f.sb, f.s.blocks, b) <==>
        Used(f.sb, old(f.s.blocks), b) && !(b in old(f.s.owner) && old(f.s.owner)[b].i == i))
    ensures forall j: nat, k: nat :: j != i ==>
      BlockOf(f.s.blocks, f.s.inodes, j, k) == BlockOf(old(f.s.blocks), old(f.s.inodes), j, k)
  {
    InvLogged(f.sb, f.s);
    f.s := f.s.(logged := {});
    Itrunc(f, i);
    FewLogged(f.sb, f.s.logged, i);
    m := Perform(l, p, f.sb, f.s, old(f.s), i);
  }

  lemma FewLogged(sb: Superblock, logged: set<nat>, i: nat)
    requires SmallMap(sb) && logged <= MapBlocks(sb) + {InodeBlock(sb, i)}
    ensures |logged| <= MAXOPBLOCKS
  {
    SetBound(logged, MapBlocks(sb), {InodeBlock(sb, i)});
  }

  lemma SizeOfDisk(d: TL.Disk, start: nat, sb: Superblock, s: Fs)
    requires LD.Yields(d, start, Image(sb, start, s)) && LogBelow(sb, start)
    ensures |d| == sb.size
  {
    assert |d| !in TL.Durable(d, start) && sb.size !in Image(sb, start, s);
  }

  /** The disk of the file system s with an empty log, as mkfs leaves it. */
  function Formatted(sb: Superblock, start: nat, s: Fs): TL.Disk {
    seq(sb.size, b requires 0 <= b < sb.size =>
      if TL.Home(sb.size, start, b) then ImageBlock(sb, s, b) else TL.ZeroBlock())
  }

  /** Every file system has a disk that yields it. */
  lemma FormattedYields(sb: Superblock, start: nat, s: Fs)
    requires LogBelow(sb, start)
    ensures LD.Yields(Formatted(sb, start, s), start, Image(sb, start, s))
  {
    var d := Formatted(sb, start, s);
    assert TL.At(d, start)[0] == 0 && TL.Head(d, start) == [];
    forall b | 0 <= b < sb.size && TL.Home(sb.size, start, b)
      ensures TL.Durable(d, start)[b] == Image(sb, start, s)[b]
    {
    }
  }

  /** Booting from any of these disks brings the file system back, ready for use. */
  method Reboot(d: TL.Disk, start: nat, sb: Superblock, ghost s: Fs) returns (l: LD.Log)
    requires LD.Yields(d, start, Image(sb, start, s)) && LogBelow(sb, start)
    ensures fresh(l) && l.s.start == start && Synced(l.s, sb, s)
    ensures forall k :: 0 <= k < |l.history| ==> LD.Yields(l.history[k], start, Image(sb, start, s))
  {
    SizeOfDisk(d, start, sb, s);
    l := new LD.Log(d, start);
    l.RecoverFromLog();
  }
}
