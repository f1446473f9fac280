/** kernel/log.c as code.  The log object holds the log structure, the buffer cache and the
  disk, and its methods update them in place.  history records the disk after every disk
  write, so a contract about history speaks of every point at which power can fail.

  A method that returns ok == false has stopped in bget's panic, for want of a buffer. */
module LogDevice {
  import opened Basics
  import opened TransactionLog

  /** Nobody is between bget and brelse. */
  ghost predicate Quiescent(s: State) {
    forall b :: b in s.cache ==> s.cache[b].users == {}
  }

  /** Recovery from this disk yields these contents. */
  ghost predicate Yields(d: Disk, start: nat, contents: map<nat, Block>) {
    GoodDisk(d, start) && Durable(d, start) == contents
  }

  /** All disks from the n-th on yield the same contents after recovery. */
  ghost predicate Steady(history: seq<Disk>, start: nat, n: nat, contents: map<nat, Block>) {
    n <= |history| && forall i :: n <= i < |history| ==> Yields(history[i], start, contents)
  }

  lemma SteadyAppend(history: seq<Disk>, start: nat, n: nat, contents: map<nat, Block>, d: Disk)
    requires Steady(history, start, n, contents) && Yields(d, start, contents)
    ensures Steady(history + [d], start, n, contents) && history <= history + [d]
  {
  }

  /** t is s with nothing changed that a client could notice, and with no more buffers taken. */
  ghost predicate Alike(s: State, t: State) {
    && t.lh == s.lh && t.start == s.start && Abstract(t) == Abstract(s) && |Busy(t)| <= |Busy(s)|
    && |t.disk| == |s.disk| && (Quiescent(s) ==> Quiescent(t))
  }

  /** The same disk, on which nobody has begun to use a buffer. */
  ghost predicate SameClients(s: State, t: State) {
    t.start == s.start && |t.disk| == |s.disk| && (Quiescent(s) ==> Quiescent(t))
  }

  lemma AlikeTrans(s: State, t: State, u: State)
    requires Alike(s, t) && Alike(t, u)
    ensures Alike(s, u)
  {
  }

  /** Only the cache differs, and nobody notices. */
  ghost predicate OnlyCache(s: State, t: State) {
    Alike(s, t) && t == s.(cache := t.cache)
  }

  lemma OnlyCacheTrans(s: State, t: State, u: State)
    requires OnlyCache(s, t) && OnlyCache(t, u)
    ensures OnlyCache(s, u)
  {
  }

  /** No block becomes busy. */
  ghost predicate NoBusier(s: State, t: State) {
    forall b: nat :: BusierAt(s, t, b)
  }

  ghost predicate BusierAt(s: State, t: State, b: nat) {
    b in Busy(t) ==> b in Busy(s)
  }

  lemma NoBusierSize(s: State, t: State)
    requires NoBusier(s, t)
    ensures |Busy(t)| <= |Busy(s)|
  {
    forall b: nat ensures BusierAt(s, t, b) {}
    assert forall b: nat :: b in Busy(t) ==> b in Busy(s) by {
      forall b: nat ensures b in Busy(t) ==> b in Busy(s) { assert BusierAt(s, t, b); }
    }
    SubsetSize(Busy(t), Busy(s));
  }

  /** During recovery no process has started yet. */
  lemma RecoveryQuiet(s: Consistent)
    requires Recovering(s.phase)
    ensures Quiescent(s) && Busy(s) == {}
  {
    forall b | b in s.cache ensures s.cache[b].users == {} && !Pinned(s.lh, s.phase, b) { BufferOf(s, b); }
  }

  /** The blocks whose buffer bget cannot recycle for somebody who holds that of block keep. */
  ghost function Taken(s: State, keep: Option<nat>): set<nat> {
    Busy(s) + if keep.Some? && keep.value in s.cache then {keep.value} else {}
  }

  lemma SpareFor(s: Consistent, keep: Option<nat>)
    ensures |s.cache| < NBUF || (exists b: nat :: keep != Some(b) && CanEvict(s, b)) <==> |Taken(s, keep)| < NBUF
    ensures keep == None ==> Taken(s, keep) == Busy(s)
  {
    var taken := Taken(s, keep);
    SubsetSize(taken, s.cache.Keys);
    if |taken| < |s.cache| {
      var b := Outside(s.cache.Keys, taken);
      BusyIsReferenced(s, b);
    } else {
      TakenAll(s, keep);
    }
  }

  lemma TakenAll(s: Consistent, keep: Option<nat>)
    requires |Taken(s, keep)| == |s.cache|
    ensures forall b: nat :: keep != Some(b) ==> !CanEvict(s, b)
  {
    var taken := Taken(s, keep);
    forall b: nat | keep != Some(b) ensures !CanEvict(s, b) {
      if b in s.cache {
        if b !in taken { SubsetSize(taken + {b}, s.cache.Keys); }
        BusyIsReferenced(s, b);
      }
    }
  }

  /** Log block x is cached, and so is the home block of entry k, which nobody has locked. */
  predicate BothCached(cache: Cache, lh: seq<nat>, k: nat, x: nat) {
    k < |lh| && x in cache && lh[k] in cache && cache[lh[k]].holder == None
  }

  lemma BothUpdate(cache: Cache, lh: seq<nat>, k: nat, x: nat, f: Buf)
    requires k < |lh| && x in cache && f.holder == None
    ensures BothCached(cache[lh[k] := f], lh, k, x)
  {
  }

  /** The buffer that write_log reads is pinned, hence cached, and free to lock. */
  lemma CopyTurn(s: Consistent, k: nat, x: nat)
    requires s.phase == Copying(k) && x == s.start + 1 + k && BothCached(s.cache, s.lh, k, x)
    ensures CanCopyBlock(s) && Inv(DoCopyBlock(s)) && Alike(s, DoCopyBlock(s)) && DoCopyBlock(s).phase == Copying(k + 1)
  {
    StepCopyBlock(s);
    var t := DoCopyBlock(s);
    RegionUnpinned(s, s.start + 1 + s.phase.done);
    forall b: nat ensures BusierAt(s, t, b) {}
    NoBusierSize(s, t);
  }

  lemma WriteHeadTurn(s: Consistent)
    requires CanWriteHead(s)
    ensures |Busy(DoWriteHead(s))| <= |Busy(s)|
  {
    var t := DoWriteHead(s);
    RegionUnpinned(s, s.start);
    assert s.lh[0..] == s.lh;
    forall b: nat ensures BusierAt(s, t, b) {}
    NoBusierSize(s, t);
  }

  lemma InstallTurn(s: Consistent, k: nat, x: nat)
    requires s.phase == Installing(k) && x == s.start + 1 + k && BothCached(s.cache, s.lh, k, x)
    ensures CanInstallBlock(s) && Inv(DoInstallBlock(s)) && Alike(s, DoInstallBlock(s))
    ensures DoInstallBlock(s).phase == Installing(k + 1)
  {
    StepInstallBlock(s);
    var t := DoInstallBlock(s);
    UnpinNext(s.lh, s.phase.done);
    forall b: nat ensures BusierAt(s, t, b) {}
    NoBusierSize(s, t);
  }

  lemma ReplayTurn(s: Consistent, x: nat)
    requires s.phase.Replay? && s.phase.done < |s.lh| && x == s.start + 1 + s.phase.done
    requires x in s.cache && s.lh[s.phase.done] in s.cache
    ensures CanReplayBlock(s) && Inv(DoReplayBlock(s)) && Alike(s, DoReplayBlock(s))
  {
    StepReplayBlock(s);
    RecoveryQuiet(s);
    RecoveryQuiet(DoReplayBlock(s));
  }

  lemma AwaitTurn(s: Consistent, p: Pid, b: nat)
    requires CanBrelse(s, p, b)
    ensures Inv(DoBrelse(s, p, b)) && Alike(s, DoBrelse(s, p, b))
  {
    StepBrelse(s, p, b);
    BrelseBusy(s, p, b);
  }

  lemma NoRoomNoBlock(s: Consistent, x: nat)
    requires !Recovering(s.phase) && s.start <= x <= s.start + LOGBLOCKS
    ensures x in s.cache ==> |Busy(s)| < NBUF
  {
    CommitNeedsSpareBuffer(s, x);
  }

  lemma RegionSize(s: Consistent, x: nat)
    requires x <= s.start + |s.lh|
    ensures x <= s.start + LOGBLOCKS
  {
  }

  /** A block that the committer works on is cached; whoever has it locked only reads it. */
  lemma PinnedNow(s: Consistent, tail: nat)
    requires (s.phase == Copying(tail) || s.phase == Installing(tail)) && tail < |s.lh|
    ensures s.lh[tail] in s.cache && s.cache[s.lh[tail]].valid && !s.cache[s.lh[tail]].dirty
  {
    assert s.lh[tail] in s.lh[tail..];
    assert Pinned(s.lh, s.phase, s.lh[tail]);
    BufferOf(s, s.lh[tail]);
  }

  lemma EvictBusy(s: Consistent, b: nat)
    requires CanEvict(s, b)
    ensures Busy(DoEvict(s, b)) == Busy(s)
  {
    BusyIsReferenced(s, b);
  }

  lemma FetchBusy(s: Consistent, b: nat)
    requires CanFetch(s, b)
    ensures Busy(DoFetch(s, b)) == Busy(s)
  {
    if Pinned(s.lh, s.phase, b) { BufferOf(s, b); }
  }

  lemma BrelseBusy(s: Consistent, p: Pid, b: nat)
    requires CanBrelse(s, p, b)
    ensures |Busy(DoBrelse(s, p, b))| <= |Busy(s)|
  {
    var t := DoBrelse(s, p, b);
    forall c: nat ensures BusierAt(s, t, c) {}
    NoBusierSize(s, t);
  }

  lemma SteadyFrom(history: seq<Disk>, start: nat, n: nat, contents: map<nat, Block>)
    requires n < |history| && Yields(history[n], start, contents) && Steady(history, start, n + 1, contents)
    ensures Steady(history, start, n, contents)
  {
  }

  lemma LastOut(active: Ops, p: Pid)
    requires p in active
    ensures active - {p} == map[] <==> |active| == 1
  {
    KeysChange(active, p, {});
    assert |active| == |active.Keys - {p}| + 1;
  }

  /** What log_write does once the scan has stopped at entry i: at the end of the list it adds an
      entry and pins the buffer. */
  function LoggedAt(s: State, p: Pid, b: nat, i: nat): State
    requires b in s.cache && p in s.active
  {
    var f := s.cache[b].(dirty := false);
    s.(cache := s.cache[b := if i == |s.lh| then f.(refcnt := f.refcnt + 1) else f],
       lh := if i == |s.lh| then s.lh + [b] else s.lh, active := s.active[p := s.active[p] + {b}])
  }

  lemma LogWriteIs(s: State, p: Pid, b: nat, i: nat)
    requires b in s.cache && p in s.active && i <= |s.lh| && b !in s.lh[..i] && (i < |s.lh| ==> s.lh[i] == b)
    ensures LoggedAt(s, p, b, i) == DoLogWrite(s, p, b)
  {
    assert i == |s.lh| ==> s.lh[..i] == s.lh;
  }

  lemma EndOpBusy(s: Consistent, p: Pid)
    requires CanEndOp(s, p)
    ensures s.phase.Ready? && Busy(DoEndOp(s, p)) == Busy(s)
  {
  }

  /** Before recovery, what clients will see is what recovery will produce. */
  lemma BootView(s: Consistent)
    requires s.phase == Boot
    ensures Abstract(s).current == Abstract(s).durable
  {
    assert Current(s) == Durable(s.disk, s.start);
  }

  /** With nothing in the log and no operation in progress, the disk is up to date. */
  lemma NothingLogged(s: Consistent)
    requires (s.phase.Copying? || (s.phase.Ready? && s.active == map[])) && s.lh == []
    ensures Abstract(s).durable == Abstract(s).current
  {
    forall b | Home(|s.disk|, s.start, b) ensures Recovered(s.disk, s.start, b) == Visible(s, b) {
      UnloggedClean(s, b);
    }
  }

  /** p has the buffer of b locked, and nobody uses another one. */
  ghost predicate OnlyUser(cache: Cache, p: Pid, b: nat) {
    && b in cache && cache[b].valid && cache[b].holder == Some(p) && cache[b].users == {p}
    && forall c :: c in cache && c != b ==> cache[c].users == {}
  }

  predicate SameDisk(s: State, t: State) {
    t.disk == s.disk && t.start == s.start && t.phase == s.phase
  }

  /** p has logged block b. */
  predicate Logs(s: State, t: State, p: Pid, b: nat)
    requires p in s.active
  {
    t.active == s.active[p := s.active[p] + {b}] && t.lh == if b in s.lh then s.lh else s.lh + [b]
  }

  lemma UnusedBuffer(s: Consistent, b: nat)
    requires Quiescent(s)
    ensures b in s.cache ==> s.cache[b].users == {} && s.cache[b].holder == None && s.cache[b].valid
  {
    if b in s.cache { BufferOf(s, b); }
  }

  class Log {
    var s: Consistent
    ghost var history: seq<Disk>

    /** A machine that has just come up: only the disk has survived. */
    constructor (disk: Disk, start: nat)
      requires GoodDisk(disk, start)
      ensures s == State(disk, start, map[], [], map[], Boot) && history == []
    {
      assert Unspent(map[]) == 0;
      s, history := State(disk, start, map[], [], map[], Boot), [];
    }

    /** bget's second loop: recycle a buffer that nobody references.  keep is the buffer
        that the caller already holds, if any. */
    method Recycle(keep: Option<nat>) returns (ok: bool)
      modifies `s
      ensures OnlyCache(old(s), s) && |Busy(s)| == |Busy(old(s))|
      ensures ok ==> |s.cache| < NBUF
      ensures s.cache.Keys <= old(s.cache.Keys) && (keep.Some? && keep.value in old(s.cache) ==> keep.value in s.cache)
      ensures forall b :: b in s.cache ==> s.cache[b] == old(s.cache)[b]
      ensures ok <==> |Taken(old(s), keep)| < NBUF
    {
      SpareFor(s, keep);
      if |s.cache| < NBUF {
        return true;
      }
      if victim :| victim in s.cache && keep != Some(victim) && s.cache[victim].refcnt == 0 {
        assert CanEvict(s, victim);
        StepEvict(s, victim);
        EvictBusy(s, victim);
        s := DoEvict(s, victim);
        KeysChange(old(s.cache), victim, old(s.cache)[victim]);
        ok := true;
      } else {
        ok := false;
      }
    }

    /** bread by the committer or by recovery.  It succeeds exactly when the block is cached or
        there is a buffer to recycle. */
    method Bread(b: nat, keep: Option<nat>) returns (ok: bool)
      requires b < |s.disk| && (b in s.cache || Recovering(s.phase) || !Home(|s.disk|, s.start, b))
      modifies `s
      ensures OnlyCache(old(s), s) && |Busy(s)| == |Busy(old(s))|
      ensures ok ==> b in s.cache
      ensures keep.Some? && keep.value in old(s.cache) ==> keep.value in s.cache
      ensures ok <==> b in old(s.cache) || |Taken(old(s), keep)| < NBUF
    {
      if b in s.cache {
        return true;
      }
      ok := Recycle(keep);
      if ok {
        StepFetch(s, b);
        FetchBusy(s, b);
        s := DoFetch(s, b);
      }
    }

    /** bread of the home block, which the log has pinned: it is cached, and if some process has
        it locked, the committer waits until that process has released it. */
    method Await(tail: nat, ghost x: nat)
      requires (s.phase == Copying(tail) || s.phase == Installing(tail)) && tail < |s.lh| && x in s.cache
      modifies `s
      ensures OnlyCache(old(s), s) && BothCached(s.cache, s.lh, tail, x)
    {
      var b := s.lh[tail];
      PinnedNow(s, tail);
      var holder := s.cache[b].holder;
      if holder.Some? {
        AwaitTurn(s, holder.value, b);
        BothUpdate(s.cache, s.lh, tail, x, DoBrelse(s, holder.value, b).cache[b]);
        s := DoBrelse(s, holder.value, b);
      }
    }

    /** bread of block x of the log area, for the committer. */
    method BreadLog(x: nat) returns (ok: bool)
      requires !Recovering(s.phase) && s.start <= x <= s.start + LOGBLOCKS
      modifies `s
      ensures OnlyCache(old(s), s)
      ensures ok ==> x in s.cache
      ensures ok <==> |Busy(old(s))| < NBUF
    {
      NoRoomNoBlock(s, x);
      SpareFor(s, None);
      ok := Bread(x, None);
    }

    /** What a turn of write_log and one of install_trans(0) start with: the two buffers. */
    method BreadBoth(tail: nat, x: nat) returns (ok: bool)
      requires (s.phase == Copying(tail) || s.phase == Installing(tail)) && tail < |s.lh| && x == s.start + 1 + tail
      modifies `s
      ensures OnlyCache(old(s), s)
      ensures ok ==> BothCached(s.cache, s.lh, tail, x)
      ensures ok <==> |Busy(old(s))| < NBUF
    {
      RegionSize(s, x);
      ok := BreadLog(x);
      if ok {
        ghost var t := s;
        Await(tail, x);
        OnlyCacheTrans(old(s), t, s);
      }
    }

    /** One turn of write_log's loop. */
    method CopyOne(tail: nat) returns (ok: bool)
      requires s.phase == Copying(tail) && tail < |s.lh|
      modifies this
      ensures Alike(old(s), s) && s.phase == (if ok then Copying(tail + 1) else Copying(tail))
      ensures history == if ok then old(history) + [s.disk] else old(history)
      ensures ok <==> |Busy(old(s))| < NBUF
    {
      var x := s.start + 1 + tail;
      ok := BreadBoth(tail, x);
      if ok {
        CopyTurn(s, tail, x);
        AlikeTrans(old(s), s, DoCopyBlock(s));
        s := DoCopyBlock(s);
        history := history + [s.disk];
      }
    }

    /** The cached blocks that the log lists go to the log area, one disk write each. */
    method WriteLog() returns (ok: bool)
      requires s.phase == Copying(0) && s.lh != []
      modifies this
      ensures Alike(old(s), s) && old(history) <= history
      ensures Steady(history, s.start, |old(history)|, old(Abstract(s)).durable)
      ensures s.phase.Copying? && (ok ==> s.phase == Copying(|s.lh|))
      ensures ok <==> |Busy(old(s))| < NBUF
    {
      var tail := 0;
      ok := true;
      while ok && tail < |s.lh|
        invariant Alike(old(s), s) && s.phase == Copying(tail) && tail <= |s.lh|
        invariant old(history) <= history && Steady(history, s.start, |old(history)|, old(Abstract(s)).durable)
        invariant (|Busy(old(s))| < NBUF ==> ok) && (if tail == 0 then ok ==> s == old(s) else |Busy(old(s))| < NBUF)
        decreases |s.lh| - tail, ok
      {
        ghost var before := history;
        ok := CopyOne(tail);
        if ok {
          SteadyAppend(before, s.start, |old(history)|, old(Abstract(s)).durable, s.disk);
          tail := tail + 1;
        }
      }
    }

    /** The header on disk becomes the one in memory: from here on the transaction counts. */
    method WriteHead() returns (ok: bool)
      requires s.phase == Copying(|s.lh|) && 0 < |s.lh|
      modifies this
      ensures |Busy(s)| <= |Busy(old(s))| && s.lh == old(s.lh) && SameClients(old(s), s)
      ensures s.phase == if ok then Installing(0) else old(s.phase)
      ensures Abstract(s) == if ok then old(Abstract(s)).(durable := old(Abstract(s)).current) else old(Abstract(s))
      ensures history == if ok then old(history) + [s.disk] else old(history)
      ensures ok <==> |Busy(old(s))| < NBUF
    {
      ok := BreadLog(s.start);
      if ok {
        StepWriteHead(s);
        WriteHeadTurn(s);
        s := DoWriteHead(s);
        history := history + [s.disk];
      }
    }

    /** One turn of install_trans(0): the home block's buffer is still pinned. */
    method InstallOne(tail: nat) returns (ok: bool)
      requires s.phase == Installing(tail) && tail < |s.lh|
      modifies this
      ensures Alike(old(s), s) && s.phase == (if ok then Installing(tail + 1) else Installing(tail))
      ensures history == if ok then old(history) + [s.disk] else old(history)
      ensures ok <==> |Busy(old(s))| < NBUF
    {
      var x := s.start + 1 + tail;
      ok := BreadBoth(tail, x);
      if ok {
        InstallWrite(tail, x);
      }
    }

    /** Its disk write, and the unpinning. */
    method InstallWrite(tail: nat, ghost x: nat)
      requires s.phase == Installing(tail) && x == s.start + 1 + tail && BothCached(s.cache, s.lh, tail, x)
      modifies this
      ensures Alike(old(s), s) && s.phase == Installing(tail + 1) && history == old(history) + [s.disk]
    {
      InstallTurn(s, tail, x);
      s := DoInstallBlock(s);
      history := history + [s.disk];
    }

    /** One turn of install_trans(1): the home block is read too, while the log block is held. */
    method ReplayOne(tail: nat)
      requires s.phase == Replay(tail) && tail < |s.lh|
      modifies this
      ensures Alike(old(s), s) && s.phase == Replay(tail + 1) && history == old(history) + [s.disk]
    {
      var x := s.start + 1 + tail;
      ReplayBread(tail, x);
      ReplayWrite(tail, x);
    }

    method ReplayBread(tail: nat, x: nat)
      requires s.phase.Replay? && tail < |s.lh| && x < |s.disk|
      modifies `s
      ensures OnlyCache(old(s), s) && x in s.cache && s.lh[tail] in s.cache
    {
      RecoveryQuiet(s);
      var ok := Bread(x, None);
      RecoveryQuiet(s);
      ok := Bread(s.lh[tail], Some(x));
    }

    method ReplayWrite(tail: nat, ghost x: nat)
      requires s.phase == Replay(tail) && tail < |s.lh| && x == s.start + 1 + tail
      requires x in s.cache && s.lh[tail] in s.cache
      modifies this
      ensures Alike(old(s), s) && s.phase == Replay(tail + 1) && history == old(history) + [s.disk]
    {
      ReplayTurn(s, x);
      s := DoReplayBlock(s);
      history := history + [s.disk];
    }

    /** What the log area holds for the listed blocks is written home. */
    method InstallTrans(recovering: bool) returns (ok: bool)
      requires s.phase == (if recovering then Replay(0) else Installing(0))
      modifies this
      ensures Alike(old(s), s) && old(history) <= history
      ensures Steady(history, s.start, |old(history)|, old(Abstract(s)).durable)
      ensures if recovering then s.phase == Replay(|s.lh|) else s.phase.Installing?
      ensures ok && !recovering ==> s.phase == Installing(|s.lh|)
      ensures ok <==> recovering || old(s.lh) == [] || |Busy(old(s))| < NBUF
      ensures old(s.lh) == [] ==> s == old(s)
    {
      var tail := 0;
      ok := true;
      while ok && tail < |s.lh|
        invariant Alike(old(s), s) && tail <= |s.lh|
        invariant s.phase == if recovering then Replay(tail) else Installing(tail)
        invariant old(history) <= history && Steady(history, s.start, |old(history)|, old(Abstract(s)).durable)
        invariant |Busy(old(s))| < NBUF || recovering ==> ok
        invariant if tail == 0 then ok ==> s == old(s) else recovering || |Busy(old(s))| < NBUF
        invariant !ok ==> s.lh != []
        decreases |s.lh| - tail, ok
      {
        ghost var before := history;
        if recovering {
          ReplayOne(tail);
        } else {
          ok := InstallOne(tail);
        }
        if ok {
          SteadyAppend(before, s.start, |old(history)|, old(Abstract(s)).durable, s.disk);
          tail := tail + 1;
        }
      }
    }

    /** The count of the header is set to zero, in memory and on disk. */
    method EraseHead() returns (ok: bool)
      requires (s.phase.Installing? || s.phase.Replay?) && s.phase.done == |s.lh|
      modifies this
      ensures SameClients(old(s), s) && Abstract(s) == old(Abstract(s))
      ensures s.phase == if !ok then old(s.phase) else if old(s.phase.Replay?) then Ready else Erased
      ensures ok ==> s.lh == []
      ensures history == if ok then old(history) + [s.disk] else old(history)
      ensures ok <==> |Busy(old(s))| < NBUF
    {
      if Recovering(s.phase) { RecoveryQuiet(s); } else { NoRoomNoBlock(s, s.start); }
      SpareFor(s, None);
      ok := Bread(s.start, None);
      if ok {
        StepEraseHead(s);
        s := DoEraseHead(s);
        history := history + [s.disk];
      }
    }

    /** install_trans(0) and the erasing write_head: nothing of this can be noticed. */
    method Install() returns (ok: bool)
      requires s.phase == Installing(0)
      modifies this
      ensures old(history) <= history && SameClients(old(s), s)
      ensures Steady(history, s.start, |old(history)|, old(Abstract(s)).durable) && Abstract(s) == old(Abstract(s))
      ensures ok ==> s.lh == [] && s.phase == Erased
      ensures ok <==> |Busy(old(s))| < NBUF
    {
      ok := InstallTrans(false);
      if ok {
        ghost var before := history;
        ok := EraseHead();
        if ok {
          SteadyAppend(before, s.start, |old(history)|, old(Abstract(s)).durable, s.disk);
        }
      }
    }

    /** Commit the transaction.  Power can fail after any of the disk writes recorded in
        history: before the m-th, recovery yields the old contents, from it on the new ones.
        It ends in bget's panic exactly when there is something to write and the blocks in the
        log and in use by readers take up all buffers. */
    method Commit() returns (ok: bool, ghost m: nat)
      requires s.phase == Copying(0)
      modifies this
      ensures old(history) <= history && |old(history)| <= m <= |history| && SameClients(old(s), s)
      ensures forall i :: |old(history)| <= i < m ==> Yields(history[i], s.start, old(Abstract(s)).durable)
      ensures Steady(history, s.start, m, old(Abstract(s)).current)
      ensures Abstract(s).current == old(Abstract(s)).current
      ensures ok ==> s.lh == [] && CanFinish(s)
      ensures ok ==> Abstract(s).durable == old(Abstract(s)).current && (old(s.lh) != [] ==> m < |history|)
      ensures ok <==> old(s.lh) == [] || |Busy(old(s))| < NBUF
    {
      m := |history|;
      ok := true;
      if |s.lh| > 0 {
        ok := WriteLog();
        m := |history|;
        if !ok { return; }
        ok := WriteHead();
        if !ok { return; }
        ok := Install();
        SteadyFrom(history, s.start, m, old(Abstract(s)).current);
      } else {
        NothingLogged(s);
      }
    }

    /** The header in memory becomes the one on disk. */
    method ReadHead()
      requires s.phase == Boot
      modifies `s
      ensures s.start == old(s.start) && s.disk == old(s.disk) && s.phase == Replay(0)
      ensures Abstract(s) == old(Abstract(s))
    {
      RecoveryQuiet(s);
      var ok := Bread(s.start, None);
      StepReadHead(s);
      s := DoReadHead(s);
    }

    /** Recovery never panics.  Wherever it is cut short, the next recovery starts from a
        disk with the same outcome; when it completes, the home blocks are that outcome. */
    method RecoverFromLog()
      requires s.phase == Boot
      modifies this
      ensures s.phase == Ready && s.lh == [] && s.active == map[] && Quiescent(s)
      ensures s.start == old(s.start) && |s.disk| == |old(s.disk)| && old(history) <= history
      ensures Steady(history, s.start, |old(history)|, old(Abstract(s)).durable)
      ensures HomeContents(s) == old(Abstract(s)).durable && Abstract(s).current == old(Abstract(s)).durable
    {
      BootView(s);
      ReadHead();
      var ok := InstallTrans(true);
      ghost var before := history;
      RecoveryQuiet(s);
      ok := EraseHead();
      SteadyAppend(before, s.start, |old(history)|, old(Abstract(s)).durable, s.disk);
      ReadyDisk(s);
    }

    /** One turn of begin_op's loop; started is false when the caller has to sleep. */
    method BeginOp(p: Pid) returns (started: bool)
      requires !Recovering(s.phase) && p !in s.active
      modifies `s
      ensures started <==> old(s.phase).Ready? && |old(s.lh)| + (|old(s.active)| + 1) * MAXOPBLOCKS <= LOGBLOCKS
      ensures if started then s == DoBeginOp(old(s), p) else s == old(s)
    {
      started := false;
      if s.phase.Ready? && |s.lh| + (|s.active| + 1) * MAXOPBLOCKS <= LOGBLOCKS {
        StepBeginOp(s, p);
        s := DoBeginOp(s, p);
        started := true;
      }
    }

    /** The scan of lh.block: the index of b, or lh.n. */
    method FindLogged(b: nat) returns (i: nat)
      ensures i <= |s.lh| && b !in s.lh[..i] && (i < |s.lh| ==> s.lh[i] == b)
    {
      i := 0;
      while i < |s.lh| && s.lh[i] != b
        invariant i <= |s.lh| && b !in s.lh[..i]
      {
        i := i + 1;
      }
    }

    /** Record the block number and pin the buffer, or absorb the write into an entry that
        is already there. */
    method LogWrite(p: Pid, b: nat)
      requires CanLogWrite(s, p, b)
      modifies `s
      ensures |old(s.lh)| < LOGBLOCKS && |old(s.active)| >= 1
      ensures s == DoLogWrite(old(s), p, b) && Abstract(s) == old(Abstract(s))
    {
      LogWriteHasRoom(s, p, b);
      StepLogWrite(s, p, b);
      var i := FindLogged(b);
      LogWriteIs(s, p, b, i);
      s := LoggedAt(s, p, b, i);
    }

    /** bget's search for a buffer for block b, while nobody uses one. */
    method MakeRoom(b: nat)
      requires Quiescent(s) && |Busy(s)| < NBUF
      modifies `s
      ensures s == old(s).(cache := s.cache) && Abstract(s) == old(Abstract(s)) && Quiescent(s)
      ensures b in s.cache || |s.cache| < NBUF
    {
      if b !in s.cache {
        SpareFor(s, None);
        var ok := Recycle(None);
      }
    }

    /** The rest of bread. */
    method Acquire(p: Pid, b: nat)
      requires !Recovering(s.phase) && Home(|s.disk|, s.start, b) && Quiescent(s) && (b in s.cache || |s.cache| < NBUF)
      modifies `s
      ensures s == old(s).(cache := s.cache) && Abstract(s) == old(Abstract(s)) && OnlyUser(s.cache, p, b)
    {
      UnusedBuffer(s, b);
      StepBget(s, p, b);
      s := DoBget(s, p, b);
      StepLock(s, p, b);
      s := DoLock(s, p, b);
      if !s.cache[b].valid {
        StepFill(s, p, b);
        s := DoFill(s, b);
      }
    }

    method Release(p: Pid, b: nat)
      requires OnlyUser(s.cache, p, b) && !s.cache[b].dirty
      modifies `s
      ensures s == old(s).(cache := s.cache) && Abstract(s) == old(Abstract(s)) && Quiescent(s)
    {
      StepBrelse(s, p, b);
      s := DoBrelse(s, p, b);
    }

    /** p changes the block that it has locked, and logs it. */
    method Change(p: Pid, b: nat, v: Block)
      requires OnlyUser(s.cache, p, b) && Home(|s.disk|, s.start, b) && p in s.active && |s.active[p]| < MAXOPBLOCKS
      modifies `s
      ensures OnlyUser(s.cache, p, b) && !s.cache[b].dirty && SameDisk(old(s), s) && Logs(old(s), s, p, b)
      ensures Abstract(s) == old(Abstract(s)).(current := old(Abstract(s)).current[b := v])
    {
      StepModify(s, p, b, v);
      s := DoModify(s, b, v);
      LogWrite(p, b);
    }

    /** bread, a change of the block, log_write and brelse. */
    method Put(p: Pid, b: nat, v: Block)
      requires s.phase == Ready && Home(|s.disk|, s.start, b) && Quiescent(s) && |Busy(s)| < NBUF
      requires p in s.active && |s.active[p]| < MAXOPBLOCKS
      modifies `s
      ensures Quiescent(s) && SameDisk(old(s), s) && Logs(old(s), s, p, b)
      ensures Abstract(s) == old(Abstract(s)).(current := old(Abstract(s)).current[b := v])
    {
      MakeRoom(b);
      Acquire(p, b);
      Change(p, b, v);
      Release(p, b);
    }

    /** The last operation out commits for everybody.  As for Commit, power can fail after any of
        the disk writes: before the m-th, recovery yields the old contents, from it on the new. */
    method EndOp(p: Pid) returns (ok: bool, ghost m: nat)
      requires CanEndOp(s, p)
      modifies this
      ensures old(s.phase).Ready? && SameClients(old(s), s) && Abstract(s).current == old(Abstract(s)).current
      ensures |old(s.active)| > 1 ==> ok && s == DoEndOp(old(s), p)
      ensures |old(s.active)| == 1 && ok ==>
        s.phase == Ready && s.lh == [] && s.active == map[] && HomeContents(s) == old(Abstract(s)).current
      ensures ok <==> |old(s.active)| > 1 || old(s.lh) == [] || |Busy(old(s))| < NBUF
      ensures old(history) <= history && |old(history)| <= m <= |history|
      ensures forall i :: |old(history)| <= i < m ==> Yields(history[i], s.start, old(Abstract(s)).durable)
      ensures Steady(history, s.start, m, old(Abstract(s)).current)
    {
      StepEndOp(s, p);
      LastOut(s.active, p);
      EndOpBusy(s, p);
      ok, m := true, |history|;
      if |s.active| == 1 {
        s := DoEndOp(s, p);
        ok, m := CommitAndFinish();
      } else {
        s := DoEndOp(s, p);
      }
    }

    method CommitAndFinish() returns (ok: bool, ghost m: nat)
      requires s.phase == Copying(0)
      modifies this
      ensures SameClients(old(s), s) && Abstract(s).current == old(Abstract(s)).current
      ensures ok ==> s.phase == Ready && s.lh == [] && s.active == map[] && HomeContents(s) == old(Abstract(s)).current
      ensures ok <==> old(s.lh) == [] || |Busy(old(s))| < NBUF
      ensures old(history) <= history && |old(history)| <= m <= |history|
      ensures forall i :: |old(history)| <= i < m ==> Yields(history[i], s.start, old(Abstract(s)).durable)
      ensures Steady(history, s.start, m, old(Abstract(s)).current)
    {
      ok, m := Commit();
      if ok {
        StepFinish(s);
        s := DoFinish(s);
        ReadyDisk(s);
      }
    }
  }
}
