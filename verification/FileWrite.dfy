/** filewrite of kernel/file.c: a write of any length as a sequence of transactions, each small
  enough for what begin_op reserves. */
module FileWrite {
  import opened Basics
  import opened DiskFormat
  import opened FileSystem
  import opened FileCode
  import opened FileOps

  /** filewrite's max: the bytes of one transaction. */
  const CHUNK: nat := (MAXOPBLOCKS - 1 - 1 - 2) / 2 * BSIZE

  /** MAXFILE blocks. */
  const MAXSIZE: nat := 274432

  /** No file but i has changed. */
  ghost predicate OthersSame(s: Fs, t: Fs, i: nat) {
    forall j: nat :: OtherFile(s, t, i, j)
  }

  ghost predicate OtherFile(s: Fs, t: Fs, i: nat, j: nat) {
    j != i ==> Contents(t, j) == Contents(s, j)
  }

  /** File i of t is c0 with bytes written at off; no other file of s has changed. */
  ghost predicate HasWritten(s: Fs, t: Fs, i: nat, off: nat, bytes: seq<Byte>) {
    off <= |Contents(s, i)| && Contents(t, i) == Overwrite(Contents(s, i), off, bytes) && OthersSame(s, t, i)
  }

  lemma OverwriteNext(c: seq<Byte>, off: nat, a: seq<Byte>, b: seq<Byte>)
    requires off <= |c|
    ensures off + |a| <= |Overwrite(c, off, a)|
    ensures Overwrite(Overwrite(c, off, a), off + |a|, b) == Overwrite(c, off, a + b)
  {
  }

  lemma HasWrittenNext(s: Fs, t: Fs, u: Fs, i: nat, off: nat, a: seq<Byte>, b: seq<Byte>)
    requires HasWritten(s, t, i, off, a) && HasWritten(t, u, i, off + |a|, b)
    ensures HasWritten(s, u, i, off, a + b)
  {
    OverwriteNext(Contents(s, i), off, a, b);
    forall j: nat ensures OtherFile(s, u, i, j) { assert OtherFile(s, t, i, j) && OtherFile(t, u, i, j); }
  }

  lemma HasWrittenNone(s: Fs, i: nat, off: nat)
    requires off <= |Contents(s, i)|
    ensures HasWritten(s, s, i, off, [])
  {
    var c := Contents(s, i);
    assert Overwrite(c, off, []) == c;
    forall j: nat ensures OtherFile(s, s, i, j) {}
  }

  lemma SizeIs(s: Fs, i: nat)
    requires i < |s.inodes|
    ensures |Contents(s, i)| == s.inodes[i].size
  {
  }

  lemma WrittenIs(s: Fs, t: Fs, i: nat, off: nat, bytes: seq<Byte>)
    requires Written(s, t, i, off, bytes) && MetaExcept(s.inodes, t.inodes, i) && i < |s.inodes|
    requires off <= s.inodes[i].size
    requires t.inodes[i].size == if off + |bytes| > s.inodes[i].size then off + |bytes| else s.inodes[i].size
    ensures HasWritten(s, t, i, off, bytes)
  {
    WrittenContents(s, t, i, off, bytes);
    forall j: nat ensures OtherFile(s, t, i, j) {}
  }

  lemma Unchanged(s: Fs, t: Fs, i: nat)
    requires SameData(s, t) && MetaExcept(s.inodes, t.inodes, i) && i < |s.inodes|
    requires t.inodes[i].size == s.inodes[i].size
    ensures Contents(t, i) == Contents(s, i) && OthersSame(s, t, i)
  {
    forall j: nat ensures Contents(t, j) == Contents(s, j) {
      if j < |s.inodes| {
        forall p: nat | p < s.inodes[j].size ensures Contents(t, j)[p] == Contents(s, j)[p] {
          assert BlockOf(t.blocks, t.inodes, j, p / 1024) == BlockOf(s.blocks, s.inodes, j, p / 1024);
        }
      }
    }
    forall j: nat ensures OtherFile(s, t, i, j) {}
  }

  /** An open file: its inode and its offset. */
  class OpenFile {
    const ip: nat
    var off: nat

    constructor (ip: nat)
      ensures this.ip == ip && off == 0
    {
      this.ip, off := ip, 0;
    }
  }

  /** What stops filewrite after done bytes: the offset is beyond the end of the file, the file
      would get too large, or the disk is full. */
  ghost predicate Stopped(sb: Superblock, s0: Fs, s: Fs, ip: nat, off: nat, done: nat, n: nat) {
    off > |Contents(s0, ip)| || off + done + (if n > done + CHUNK then CHUNK else n - done) > MAXSIZE
    || Full(sb, s.blocks)
  }

  /** What filewrite has done so far, having started from s0 at offset off. */
  ghost predicate Progress(s0: Fs, s: Fs, ip: nat, off: nat, bytes: seq<Byte>) {
    if off <= |Contents(s0, ip)| then HasWritten(s0, s, ip, off, bytes)
    else bytes == [] && Contents(s, ip) == Contents(s0, ip) && OthersSame(s0, s, ip)
  }

  lemma ProgressNext(s0: Fs, s: Fs, t: Fs, ip: nat, off: nat, a: seq<Byte>, b: seq<Byte>)
    requires Progress(s0, s, ip, off, a)
    requires off <= |Contents(s0, ip)| && HasWritten(s, t, ip, off + |a|, b)
    ensures Progress(s0, t, ip, off, a + b)
  {
    HasWrittenNext(s0, s, t, ip, off, a, b);
  }

  lemma ProgressSame(s0: Fs, s: Fs, t: Fs, ip: nat, off: nat, a: seq<Byte>)
    requires Progress(s0, s, ip, off, a) && Contents(t, ip) == Contents(s, ip) && OthersSame(s, t, ip)
    ensures Progress(s0, t, ip, off, a)
  {
    forall j: nat ensures OtherFile(s0, t, ip, j) { assert OtherFile(s0, s, ip, j) && OtherFile(s, t, ip, j); }
  }

  /** Where the next byte goes is within or at the end of the file. */
  lemma ProgressSize(s0: Fs, s: Fs, ip: nat, off: nat, a: seq<Byte>)
    requires Progress(s0, s, ip, off, a)
    ensures off + |a| <= |Contents(s, ip)| <==> off <= |Contents(s0, ip)|
  {
    if off <= |Contents(s0, ip)| { OverwriteNext(Contents(s0, ip), off, a, []); }
  }

  ghost predicate Usable(sb: Superblock, s: Fs, ip: nat) {
    Inv(sb, s) && ip < |s.inodes| && s.inodes[ip].typ != 0
  }

  /** The transaction of one turn, in terms of files.  What it logs fits in MAXOPBLOCKS as long
      as the free map has at most four blocks. */
  method WriteOne(f: FileSys, ip: nat, off: nat, bytes: seq<Byte>) returns (r: int)
    requires Usable(f.sb, f.s, ip) && off < U32 && |bytes| <= CHUNK
    modifies f`s
    ensures Usable(f.sb, f.s, ip) && |f.s.logged| <= f.sb.first - f.sb.bmapstart + 6
    ensures r <= |bytes| && (r < 0 <==> off > |Contents(old(f.s), ip)| || off + |bytes| > MAXSIZE)
    ensures if r < 0 then Contents(f.s, ip) == Contents(old(f.s), ip) && OthersSame(old(f.s), f.s, ip)
            else HasWritten(old(f.s), f.s, ip, off, bytes[..r]) && off + r <= MAXSIZE
    ensures 0 <= r < |bytes| ==> Full(f.sb, f.s.blocks)
    ensures OnlyLogged(f.sb, old(f.s).(logged := {}), f.s, ip)
    ensures InodeBlock(f.sb, ip) in f.s.logged || f.s.inodes == old(f.s.inodes)
  {
    SizeIs(f.s, ip);
    r := WriteOp(f, ip, off, bytes);
    if r >= 0 {
      WrittenIs(old(f.s), f.s, ip, off, bytes[..r]);
    } else {
      Unchanged(old(f.s), f.s, ip);
    }
  }

  /** What a turn that was to write b after a, at offset at, has come to. */
  lemma TurnOver(sb: Superblock, s0: Fs, s: Fs, t: Fs, ip: nat, off: nat, at: nat, a: seq<Byte>, b: seq<Byte>, r: int)
    requires Progress(s0, s, ip, off, a) && r <= |b| && b != [] && at == off + |a|
    requires r < 0 <==> at > |Contents(s, ip)| || at + |b| > MAXSIZE
    requires if r < 0 then Contents(t, ip) == Contents(s, ip)
      && OthersSame(s, t, ip) else HasWritten(s, t, ip, at, b[..r])
    requires 0 <= r < |b| ==> Full(sb, t.blocks)
    ensures Progress(s0, t, ip, off, if r > 0 then a + b[..r] else a)
    ensures r != |b| ==> off > |Contents(s0, ip)| || at + |b| > MAXSIZE || Full(sb, t.blocks)
  {
    ProgressSize(s0, s, ip, off, a);
    if r >= 0 {
      ProgressNext(s0, s, t, ip, off, a, b[..r]);
      assert r == 0 ==> a + b[..r] == a;
    } else {
      ProgressSame(s0, s, t, ip, off, a);
    }
  }

  lemma ProgressAs(s0: Fs, s: Fs, ip: nat, off: nat, a: seq<Byte>, b: seq<Byte>)
    requires Progress(s0, s, ip, off, a) && a == b
    ensures Progress(s0, s, ip, off, b)
  {
  }

  lemma Slices(src: seq<Byte>, done: nat, n: nat, r: nat)
    requires r <= n && done + n <= |src|
    ensures src[..done] + src[done..done + n][..r] == src[..done + r]
  {
  }

  /** One turn of filewrite's loop, after done bytes; next is how many have been written then. */
  method Turn(f: FileSys, o: OpenFile, src: seq<Byte>, done: nat, ghost s0: Fs, ghost off: nat)
    returns (ok: bool, next: nat)
    requires Usable(f.sb, f.s, o.ip) && done < |src| && Progress(s0, f.s, o.ip, off, src[..done])
    requires o.off == off + done && o.off < U32
    modifies f`s, o`off
    ensures Usable(f.sb, f.s, o.ip) && |f.s.logged| <= f.sb.first - f.sb.bmapstart + 6
    ensures done <= next <= |src| && Progress(s0, f.s, o.ip, off, src[..next]) && o.off == off + next && o.off < U32
    ensures if ok then done < next else Stopped(f.sb, s0, f.s, o.ip, off, done, |src|) && next < |src|
    ensures OnlyLogged(f.sb, old(f.s).(logged := {}), f.s, o.ip)
    ensures InodeBlock(f.sb, o.ip) in f.s.logged || f.s.inodes == old(f.s.inodes)
  {
    var n1 := if |src| > done + CHUNK then CHUNK else |src| - done;
    var bytes := src[done..done + n1];
    var r := WriteOne(f, o.ip, o.off, bytes);
    ghost var was := src[..done];
    TurnOver(f.sb, s0, old(f.s), f.s, o.ip, off, o.off, was, bytes, r);
    ok, next := r == n1, if r > 0 then done + r else done;
    ghost var all := if r > 0 then was + bytes[..r] else was;
    assert all == src[..next] by {
      if r > 0 { Slices(src, done, n1, r); }
    }
    ProgressAs(s0, f.s, o.ip, off, all, src[..next]);
    o.off := o.off + (next - done);
  }

  /** filewrite: the file becomes the old one overwritten, from the offset on, with the first
      written bytes, no other file changes, and the offset moves on by as much.  The result is
      the length if all bytes are written and -1 otherwise, for one of three reasons.  The copy
      from the user is taken to succeed. */
  method Filewrite(f: FileSys, o: OpenFile, src: seq<Byte>) returns (r: int, ghost written: nat)
    requires Usable(f.sb, f.s, o.ip) && o.off < U32
    modifies f`s, o`off
    ensures Usable(f.sb, f.s, o.ip) && written <= |src|
    ensures Progress(old(f.s), f.s, o.ip, old(o.off), src[..written]) && o.off == old(o.off) + written
    ensures r == if written == |src| then |src| else -1
    ensures r == -1 ==>
      exists done: nat :: done <= written && Stopped(f.sb, old(f.s), f.s, o.ip, old(o.off), done, |src|)
  {
    var i := 0;
    written := 0;
    ProgressNone(f.s, o.ip, o.off);
    while i < |src|
      invariant 0 <= i <= |src| && written == i && Usable(f.sb, f.s, o.ip)
      invariant Progress(old(f.s), f.s, o.ip, old(o.off), src[..i]) && o.off == old(o.off) + i && o.off < U32
    {
      var ok;
      ghost var done := i;
      ok, i := Turn(f, o, src, i, old(f.s), old(o.off));
      written := i;
      if !ok {
        assert Stopped(f.sb, old(f.s), f.s, o.ip, old(o.off), done, |src|);
        return -1, written;
      }
    }
    r := |src|;
  }

  lemma ProgressNone(s: Fs, ip: nat, off: nat)
    ensures Progress(s, s, ip, off, [])
  {
    if off <= |Contents(s, ip)| { HasWrittenNone(s, ip, off); }
    forall j: nat ensures OtherFile(s, s, ip, j) {}
  }
}
