/** Both ways in which commit runs out of buffers (TransactionLog.CommitNeedsSpareBuffer) happen:
  runs of the machine that end in them, from a freshly made disk. */
module LogExhaustion {
  import opened Basics
  import opened TransactionLog

  ghost predicate Reachable(s: State) {
    exists states, acts :: RunsTo(states, acts, s)
  }

  ghost predicate RunsTo(states: seq<State>, acts: seq<Action>, s: State) {
    Run(states, acts) && states[|acts|] == s
  }

  lemma ReachableInv(s: State)
    requires Reachable(s)
    ensures Inv(s)
  {
    var states, acts :| RunsTo(states, acts, s);
    RunRefines(states, acts, |acts|);
  }

  lemma ReachStep(s: State, a: Action)
    requires Reachable(s) && Enabled(s, a)
    ensures Reachable(Apply(s, a))
  {
    var states, acts :| RunsTo(states, acts, s);
    var more, all := acts + [a], states + [Apply(s, a)];
    forall i: nat ensures StepAt(all, more, i) {
      assert StepAt(states, acts, i);
    }
    assert RunsTo(all, more, Apply(s, a));
  }

  // ---------------------------------------------------------------- three operations begin

  ghost function BlankDisk(): Disk {
    seq(2 * LOGBLOCKS + 2, _ => ZeroBlock())
  }

  ghost function Booted(cache: Cache, phase: Phase): State {
    State(BlankDisk(), 0, cache, [], map[], phase)
  }

  lemma ReachReplay()
    ensures Reachable(Booted(map[0 := Clean(ZeroBlock())], Replay(0)))
  {
    var s, t := Booted(map[], Boot), Booted(map[0 := Clean(ZeroBlock())], Boot);
    assert RunsTo([s], [], s);
    ReachStep(s, Fetch(0));
    ReachStep(t, ReadHead);
    assert DoReadHead(t) == Booted(t.cache, Replay(0));
  }

  lemma ReachReady()
    ensures Reachable(Booted(map[], Ready))
  {
    ReachReplay();
    var z := ZeroBlock();
    var s, t := Booted(map[0 := Clean(z)], Replay(0)), Booted(map[0 := Clean(z)], Ready);
    ReachStep(s, EraseHead);
    assert EncodeHead(z, []) == z && BlankDisk()[0 := z] == BlankDisk();
    assert DoEraseHead(s) == t;
    ReachStep(t, Evict(0));
    assert t.cache - {0} == map[];
  }

  /** How many of the first i blocks, ten to an operation, are those of operation p. */
  function Share(i: nat, p: nat): nat {
    if i <= 10 * p then 0 else if i <= 10 * p + 10 then i - 10 * p else 10
  }

  ghost predicate Counts(active: Ops, i: nat) {
    active.Keys == {0, 1, 2} && |active[0]| == Share(i, 0) && |active[1]| == Share(i, 1) && |active[2]| == Share(i, 2)
  }

  ghost predicate Listed(cache: Cache, lh: seq<nat>, i: nat) {
    && |lh| == i && cache.Keys == Elements(lh) && (forall b :: b in lh ==> 31 <= b < 31 + i)
    && (forall b :: b in cache ==> cache[b].users == {} && !cache[b].dirty)
  }

  /** Three operations have logged i blocks, starting with block 31, and hold no buffer. */
  ghost predicate Filled(s: State, i: nat) {
    && |s.disk| == 2 * LOGBLOCKS + 2 && s.start == 0 && s.phase == Ready
    && Counts(s.active, i) && Listed(s.cache, s.lh, i)
  }

  lemma Begin() returns (s: State)
    ensures Reachable(s) && Filled(s, 0)
  {
    ReachReady();
    s := Booted(map[], Ready);
    ReachStep(s, BeginOp(0));
    s := DoBeginOp(s, 0);
    assert |s.active| == 1;
    ReachStep(s, BeginOp(1));
    s := DoBeginOp(s, 1);
    assert |s.active| == 2;
    ReachStep(s, BeginOp(2));
    s := DoBeginOp(s, 2);
    assert s.active == map[0 := {}, 1 := {}, 2 := {}];
  }

  // ---------------------------------------------------------------- they fill the log

  /** Process p brings block b in and logs it. */
  function LoggedBy(s: State, p: Pid, b: nat): State
    requires p in s.active
  {
    s.(cache := s.cache[b := Buf(At(s.disk, b), true, 1, {}, None, false)], lh := s.lh + [b],
       active := s.active[p := s.active[p] + {b}])
  }

  lemma ReachLock(s: State, p: Pid, b: nat, f: Buf)
    requires Reachable(s) && s.phase.Ready? && Home(|s.disk|, s.start, b) && b !in s.cache && |s.cache| < NBUF
    requires f == Buf(ZeroBlock(), false, 1, {p}, None, false)
    ensures Reachable(s.(cache := s.cache[b := f.(holder := Some(p))]))
  {
    ReachStep(s, Bget(p, b));
    var t := s.(cache := s.cache[b := f]);
    assert {} + {p} == {p} && DoBget(s, p, b) == t;
    ReachStep(t, Lock(p, b));
    assert DoLock(t, p, b) == s.(cache := s.cache[b := f.(holder := Some(p))]);
  }

  lemma ReachRead(s: State, p: Pid, b: nat)
    requires Reachable(s) && s.phase.Ready? && Home(|s.disk|, s.start, b) && b !in s.cache && |s.cache| < NBUF
    ensures Reachable(s.(cache := s.cache[b := Buf(At(s.disk, b), true, 1, {p}, Some(p), false)]))
  {
    var f := Buf(ZeroBlock(), false, 1, {p}, None, false);
    ReachLock(s, p, b, f);
    var s2 := s.(cache := s.cache[b := f.(holder := Some(p))]);
    ReachStep(s2, Action.Fill(p, b));
    assert DoFill(s2, b) == s.(cache := s.cache[b := Buf(At(s.disk, b), true, 1, {p}, Some(p), false)]);
  }

  lemma ReachLogged(s: State, p: Pid, b: nat)
    requires Reachable(s) && s.phase.Ready? && p in s.active && |s.active[p]| < MAXOPBLOCKS
    requires Home(|s.disk|, s.start, b) && b !in s.cache && b !in s.lh && |s.cache| < NBUF
    ensures Reachable(LoggedBy(s, p, b))
  {
    ReachRead(s, p, b);
    var t := s.(cache := s.cache[b := Buf(At(s.disk, b), true, 1, {p}, Some(p), false)]);
    LogAndRelease(t, p, b);
    assert LoggedBy(t, p, b).cache == LoggedBy(s, p, b).cache;
  }

  lemma LogAndRelease(s: State, p: Pid, b: nat)
    requires Reachable(s) && s.phase.Ready? && p in s.active && |s.active[p]| < MAXOPBLOCKS
    requires Home(|s.disk|, s.start, b) && b !in s.lh
    requires b in s.cache && s.cache[b] == Buf(At(s.disk, b), true, 1, {p}, Some(p), false)
    ensures Reachable(LoggedBy(s, p, b))
  {
    ReachStep(s, LogWrite(p, b));
    var t := DoLogWrite(s, p, b);
    ReachStep(t, Brelse(p, b));
    assert {p} - {p} == {};
    assert DoBrelse(t, p, b).cache == LoggedBy(s, p, b).cache;
  }

  lemma FilledSize(s: State, i: nat)
    requires Reachable(s) && Filled(s, i)
    ensures |s.cache| == i
  {
    ReachableInv(s);
    ListSetSize(s.lh);
    assert |s.cache| == |s.cache.Keys|;
  }

  lemma CountsNext(active: Ops, i: nat, p: nat, b: nat)
    requires Counts(active, i) && 10 * p <= i < 10 * p + 10 && p < 3 && b !in active[p]
    ensures |active[p]| < 10 && Counts(active[p := active[p] + {b}], i + 1)
  {
  }

  lemma ListedNext(cache: Cache, lh: seq<nat>, i: nat, f: Buf)
    requires Listed(cache, lh, i) && f.users == {} && !f.dirty
    ensures Listed(cache[31 + i := f], lh + [31 + i], i + 1)
  {
    KeysChange(cache, 31 + i, f);
    assert Elements(lh + [31 + i]) == Elements(lh) + {31 + i};
  }

  lemma FillNext(s: State, i: nat, p: nat) returns (t: State)
    requires Reachable(s) && Filled(s, i) && 10 * p <= i < 10 * p + 10 && p < 3
    ensures Reachable(t) && Filled(t, i + 1)
  {
    FilledSize(s, i);
    NotLogged(s, p, 31 + i);
    CountsNext(s.active, i, p, 31 + i);
    ListedNext(s.cache, s.lh, i, Buf(At(s.disk, 31 + i), true, 1, {}, None, false));
    ReachLogged(s, p, 31 + i);
    t := LoggedBy(s, p, 31 + i);
  }

  lemma NotLogged(s: State, p: nat, b: nat)
    requires Reachable(s) && b !in s.lh && p in s.active
    ensures b !in s.active[p]
  {
    ReachableInv(s);
  }

  lemma {:induction false} FillTo(i: nat) returns (s: State)
    requires i <= LOGBLOCKS
    ensures Reachable(s) && Filled(s, i)
  {
    if i == 0 {
      s := Begin();
    } else {
      s := FillTo(i - 1);
      s := FillNext(s, i - 1, (i - 1) / 10);
    }
  }

  // ---------------------------------------------------------------- and end

  /** All three have ended, so the log commits. */
  lemma EndAll(s: State, i: nat) returns (t: State)
    requires Reachable(s) && Filled(s, i)
    ensures Reachable(t) && t == s.(active := map[], phase := Copying(0))
  {
    ReachStep(s, EndOp(0));
    t := DoEndOp(s, 0);
    assert t.active.Keys == {1, 2} && 1 in t.active;
    ReachStep(t, EndOp(1));
    t := DoEndOp(t, 1);
    assert t.active.Keys == {2} && 2 in t.active;
    ReachStep(t, EndOp(2));
    t := DoEndOp(t, 2);
    assert t.active == map[];
  }

  /** write_log cannot get a buffer for the next log block: bget panics. */
  ghost predicate Stuck(s: State) {
    && s.phase.Copying? && s.phase.done < |s.lh| && s.start + 1 + s.phase.done !in s.cache
    && |s.cache| == NBUF && !(exists b :: CanEvict(s, b))
  }

  /** Three operations that log ten blocks each fill the log, and the commit panics. */
  lemma FullLogPanics() returns (s: State)
    ensures Reachable(s) && Stuck(s) && |s.lh| == NBUF
  {
    var f := FillTo(30);
    FilledSize(f, 30);
    s := EndAll(f, 30);
    ReachableInv(s);
    assert Busy(s) == s.cache.Keys;
    CommitNeedsSpareBuffer(s, 1);
  }

  /** So does that of a log with one block fewer, when a process that is not in an operation is
      reading another block. */
  lemma ReaderPanics() returns (s: State)
    ensures Reachable(s) && Stuck(s) && |s.lh| == NBUF - 1
  {
    var f := FillTo(29);
    FilledSize(f, 29);
    var t := EndAll(f, 29);
    assert 61 !in t.lh;
    ReachStep(t, Bget(7, 61));
    s := DoBget(t, 7, 61);
    ReachableInv(s);
    KeysChange(t.cache, 61, s.cache[61]);
    assert 7 in s.cache[61].users;
    assert Busy(s) == s.cache.Keys;
    CommitNeedsSpareBuffer(s, 1);
  }
}
