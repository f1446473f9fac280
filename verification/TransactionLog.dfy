/** kernel/log.c over kernel/bio.c as an interleaved machine.

  The state is what the kernel keeps: disk blocks, cached buffers, the in-memory log header,
  the operations that are between begin_op and end_op, and how far commit or recovery has
  got.  An action is one step of one process or of the committer; every disk write is an
  action of its own, and Crash can come between any two actions, also during recovery.
  Processes interleave in any order.  */
module TransactionLog {
  import opened Basics

  const LOGBLOCKS: nat := 30
  /** BSIZE bytes seen as 32-bit words. */
  const WORDS: nat := 256

  type Pid = nat
  type Block = b: seq<nat> | |b| == WORDS witness seq(WORDS, _ => 0)
  type Disk = seq<Block>
  type Ops = map<Pid, set<nat>>

  /** A buffer of the cache.  users are the processes between bget and brelse: together with
      the pin of log_write they make up refcnt.  dirty: the holder changed data and has not
      called log_write since. */
  datatype Buf = Buf(data: Block, valid: bool, refcnt: int, users: set<Pid>, holder: Option<Pid>, dirty: bool)
  type Cache = map<nat, Buf>

  datatype Phase =
    | Boot                  // recover_from_log has not read the header yet
    | Replay(done: nat)     // install_trans(1) has written done blocks home
    | Ready                 // log.committing == 0
    | Copying(done: nat)    // write_log has written done log blocks
    | Installing(done: nat) // the header is on disk; install_trans(0) has written done blocks home
    | Erased                // the header is cleared, log.committing is still 1

  /** active maps each process inside begin_op/end_op to the blocks it has logged. */
  datatype State = State(disk: Disk, start: nat, cache: Cache, lh: seq<nat>, active: Ops, phase: Phase)

  datatype Action =
    | BeginOp(p: Pid)
    | Bget(p: Pid, b: nat)
    | Lock(p: Pid, b: nat)
    | Fill(p: Pid, b: nat)
    | Modify(p: Pid, b: nat, v: Block)
    | LogWrite(p: Pid, b: nat)
    | Brelse(p: Pid, b: nat)
    | Evict(b: nat)
    | EndOp(p: Pid)
    | Fetch(b: nat)
    | CopyBlock
    | WriteHead
    | InstallBlock
    | EraseHead
    | Finish
    | ReadHead
    | ReplayBlock
    | Crash

  // ---------------------------------------------------------------- layout

  function ZeroBlock(): Block {
    seq(WORDS, _ => 0)
  }

  function At(disk: Disk, b: nat): Block {
    if b < |disk| then disk[b] else ZeroBlock()
  }

  predicate Home(size: nat, start: nat, b: nat) {
    b < size && (b < start || start + LOGBLOCKS < b)
  }

  /** The i-th block of the log area. */
  function LogBlock(disk: Disk, start: nat, i: nat): Block {
    At(disk, start + 1 + i)
  }

  /** write_head changes the count and the first n entries of the header block only. */
  function EncodeHead(h: Block, lh: seq<nat>): Block
    requires |lh| <= LOGBLOCKS
  {
    [|lh|] + lh + h[1 + |lh|..]
  }

  function DecodeHead(h: Block): seq<nat> {
    if h[0] <= LOGBLOCKS then h[1..1 + h[0]] else []
  }

  function Head(disk: Disk, start: nat): seq<nat> {
    DecodeHead(At(disk, start))
  }

  ghost predicate Distinct(l: seq<nat>) {
    forall i, j :: 0 <= i < j < |l| ==> l[i] != l[j]
  }

  ghost function Find(l: seq<nat>, b: nat): (i: nat)
    requires b in l
    ensures i < |l| && l[i] == b
  {
    var i :| 0 <= i < |l| && l[i] == b;
    i
  }

  predicate Recovering(phase: Phase) {
    phase.Boot? || phase.Replay?
  }

  /** Whether the buffer of block b carries the extra reference of log_write's bpin. */
  predicate Pinned(lh: seq<nat>, phase: Phase, b: nat) {
    match phase
    case Ready => b in lh
    case Copying(_) => b in lh
    case Installing(k) => k <= |lh| && b in lh[k..]
    case _ => false
  }

  /** What bread of block b returns. */
  function Contents(disk: Disk, cache: Cache, b: nat): Block {
    if b in cache && cache[b].valid then cache[b].data else At(disk, b)
  }

  // ---------------------------------------------------------------- actions
  //
  // Each action has a guard (what the code waits for, and the client discipline of
  // log_write: a buffer is changed inside an operation, logged before it is released, and
  // each log_write finds budget left) and an effect.

  predicate Holds(s: State, p: Pid, b: nat) {
    b in s.cache && s.cache[b].holder == Some(p)
  }

  /** A buffer that nobody uses, holding contents that equal the disk's. */
  function Clean(v: Block): Buf {
    Buf(v, true, 0, {}, None, false)
  }

  predicate CanBeginOp(s: State, p: Pid) {
    s.phase.Ready? && p !in s.active && |s.lh| + (|s.active| + 1) * MAXOPBLOCKS <= LOGBLOCKS
  }

  function DoBeginOp(s: State, p: Pid): State {
    s.(active := s.active[p := {}])
  }

  predicate CanBget(s: State, p: Pid, b: nat) {
    && !Recovering(s.phase) && Home(|s.disk|, s.start, b)
    && (if b in s.cache then p !in s.cache[b].users else |s.cache| < NBUF)
  }

  function DoBget(s: State, p: Pid, b: nat): State {
    var f := if b in s.cache then s.cache[b] else Buf(ZeroBlock(), false, 0, {}, None, false);
    s.(cache := s.cache[b := f.(refcnt := f.refcnt + 1, users := f.users + {p})])
  }

  predicate CanLock(s: State, p: Pid, b: nat) {
    b in s.cache && p in s.cache[b].users && s.cache[b].holder == None
  }

  function DoLock(s: State, p: Pid, b: nat): State
    requires b in s.cache
  {
    s.(cache := s.cache[b := s.cache[b].(holder := Some(p))])
  }

  predicate CanFill(s: State, p: Pid, b: nat) {
    Holds(s, p, b) && !s.cache[b].valid
  }

  function DoFill(s: State, b: nat): State
    requires b in s.cache
  {
    s.(cache := s.cache[b := s.cache[b].(data := At(s.disk, b), valid := true)])
  }

  predicate CanModify(s: State, p: Pid, b: nat) {
    Holds(s, p, b) && s.cache[b].valid && p in s.active && Home(|s.disk|, s.start, b)
  }

  function DoModify(s: State, b: nat, v: Block): State
    requires b in s.cache
  {
    s.(cache := s.cache[b := s.cache[b].(data := v, dirty := true)])
  }

  predicate CanLogWrite(s: State, p: Pid, b: nat) {
    && Holds(s, p, b) && s.cache[b].valid && Home(|s.disk|, s.start, b)
    && p in s.active && |s.active[p]| < MAXOPBLOCKS
  }

  /** The scan of lh.block absorbs a block that is already listed. */
  function DoLogWrite(s: State, p: Pid, b: nat): State
    requires b in s.cache && p in s.active
  {
    var f := s.cache[b].(dirty := false);
    var t := s.(active := s.active[p := s.active[p] + {b}]);
    if b in s.lh then t.(cache := s.cache[b := f])
    else t.(cache := s.cache[b := f.(refcnt := f.refcnt + 1)], lh := s.lh + [b])
  }

  predicate CanBrelse(s: State, p: Pid, b: nat) {
    Holds(s, p, b) && s.cache[b].valid && !s.cache[b].dirty
  }

  function DoBrelse(s: State, p: Pid, b: nat): State
    requires b in s.cache
  {
    var f := s.cache[b];
    s.(cache := s.cache[b := f.(refcnt := f.refcnt - 1, users := f.users - {p}, holder := None)])
  }

  predicate CanEvict(s: State, b: nat) {
    b in s.cache && s.cache[b].refcnt == 0
  }

  function DoEvict(s: State, b: nat): State {
    s.(cache := s.cache - {b})
  }

  predicate CanEndOp(s: State, p: Pid) {
    p in s.active && forall b :: b in s.cache && s.cache[b].dirty ==> s.cache[b].holder != Some(p)
  }

  function DoEndOp(s: State, p: Pid): State {
    s.(active := s.active - {p}, phase := if s.active - {p} == map[] then Copying(0) else s.phase)
  }

  predicate CanFetch(s: State, b: nat) {
    b < |s.disk| && b !in s.cache && |s.cache| < NBUF && (Recovering(s.phase) || !Home(|s.disk|, s.start, b))
  }

  /** bread by the committer or by recovery, which alone read the log region. */
  function DoFetch(s: State, b: nat): State {
    s.(cache := s.cache[b := Clean(At(s.disk, b))])
  }

  predicate CanCopyBlock(s: State) {
    && s.phase.Copying? && s.phase.done < |s.lh| && s.start + 1 + s.phase.done < |s.disk|
    && s.start + 1 + s.phase.done in s.cache
    && s.lh[s.phase.done] in s.cache && s.cache[s.lh[s.phase.done]].holder == None
  }

  /** One turn of write_log: the cached block goes to the next log block. */
  function DoCopyBlock(s: State): State
    requires CanCopyBlock(s)
  {
    var v := Contents(s.disk, s.cache, s.lh[s.phase.done]);
    var l := s.start + 1 + s.phase.done;
    s.(disk := s.disk[l := v], cache := s.cache[l := Clean(v)], phase := Copying(s.phase.done + 1))
  }

  predicate CanWriteHead(s: State) {
    && s.phase.Copying? && s.phase.done == |s.lh| && 0 < |s.lh| <= LOGBLOCKS
    && s.start < |s.disk| && s.start in s.cache
  }

  function DoWriteHead(s: State): State
    requires CanWriteHead(s)
  {
    var h := EncodeHead(Contents(s.disk, s.cache, s.start), s.lh);
    s.(disk := s.disk[s.start := h], cache := s.cache[s.start := Clean(h)], phase := Installing(0))
  }

  predicate CanInstallBlock(s: State) {
    && s.phase.Installing? && s.phase.done < |s.lh| && s.lh[s.phase.done] < |s.disk|
    && s.start + 1 + s.phase.done in s.cache
    && s.lh[s.phase.done] in s.cache && s.cache[s.lh[s.phase.done]].holder == None
  }

  /** One turn of install_trans(0): read the log block, write it home, unpin the buffer. */
  function DoInstallBlock(s: State): State
    requires CanInstallBlock(s)
  {
    var b := s.lh[s.phase.done];
    var v := Contents(s.disk, s.cache, s.start + 1 + s.phase.done);
    s.(disk := s.disk[b := v],
       cache := s.cache[b := s.cache[b].(data := v, refcnt := s.cache[b].refcnt - 1)],
       phase := Installing(s.phase.done + 1))
  }

  predicate CanEraseHead(s: State) {
    && (s.phase.Installing? || s.phase.Replay?) && s.phase.done == |s.lh|
    && s.start < |s.disk| && s.start in s.cache
  }

  /** log.lh.n = 0 and the second write_head. */
  function DoEraseHead(s: State): State
    requires CanEraseHead(s)
  {
    var h := EncodeHead(Contents(s.disk, s.cache, s.start), []);
    s.(disk := s.disk[s.start := h], cache := s.cache[s.start := Clean(h)], lh := [],
       phase := if s.phase.Replay? then Ready else Erased)
  }

  predicate CanFinish(s: State) {
    s.phase.Erased? || (s.phase.Copying? && s.lh == [])
  }

  function DoFinish(s: State): State {
    s.(phase := Ready)
  }

  predicate CanReadHead(s: State) {
    s.phase.Boot? && s.start in s.cache
  }

  function DoReadHead(s: State): State {
    s.(lh := DecodeHead(Contents(s.disk, s.cache, s.start)), phase := Replay(0))
  }

  predicate CanReplayBlock(s: State) {
    && s.phase.Replay? && s.phase.done < |s.lh| && s.lh[s.phase.done] < |s.disk|
    && s.start + 1 + s.phase.done in s.cache && s.lh[s.phase.done] in s.cache
  }

  /** One turn of install_trans(1): nothing is pinned. */
  function DoReplayBlock(s: State): State
    requires CanReplayBlock(s)
  {
    var b := s.lh[s.phase.done];
    var v := Contents(s.disk, s.cache, s.start + 1 + s.phase.done);
    s.(disk := s.disk[b := v], cache := s.cache[b := Clean(v)], phase := Replay(s.phase.done + 1))
  }

  function DoCrash(s: State): State {
    s.(cache := map[], lh := [], active := map[], phase := Boot)
  }

  predicate Enabled(s: State, a: Action) {
    match a
    case BeginOp(p) => CanBeginOp(s, p)
    case Bget(p, b) => CanBget(s, p, b)
    case Lock(p, b) => CanLock(s, p, b)
    case Fill(p, b) => CanFill(s, p, b)
    case Modify(p, b, v) => CanModify(s, p, b)
    case LogWrite(p, b) => CanLogWrite(s, p, b)
    case Brelse(p, b) => CanBrelse(s, p, b)
    case Evict(b) => CanEvict(s, b)
    case EndOp(p) => CanEndOp(s, p)
    case Fetch(b) => CanFetch(s, b)
    case CopyBlock => CanCopyBlock(s)
    case WriteHead => CanWriteHead(s)
    case InstallBlock => CanInstallBlock(s)
    case EraseHead => CanEraseHead(s)
    case Finish => CanFinish(s)
    case ReadHead => CanReadHead(s)
    case ReplayBlock => CanReplayBlock(s)
    case Crash => true
  }

  function Apply(s: State, a: Action): State
    requires Enabled(s, a)
  {
    match a
    case BeginOp(p) => DoBeginOp(s, p)
    case Bget(p, b) => DoBget(s, p, b)
    case Lock(p, b) => DoLock(s, p, b)
    case Fill(p, b) => DoFill(s, b)
    case Modify(p, b, v) => DoModify(s, b, v)
    case LogWrite(p, b) => DoLogWrite(s, p, b)
    case Brelse(p, b) => DoBrelse(s, p, b)
    case Evict(b) => DoEvict(s, b)
    case EndOp(p) => DoEndOp(s, p)
    case Fetch(b) => DoFetch(s, b)
    case CopyBlock => DoCopyBlock(s)
    case WriteHead => DoWriteHead(s)
    case InstallBlock => DoInstallBlock(s)
    case EraseHead => DoEraseHead(s)
    case Finish => DoFinish(s)
    case ReadHead => DoReadHead(s)
    case ReplayBlock => DoReplayBlock(s)
    case Crash => DoCrash(s)
  }

  // ---------------------------------------------------------------- invariant

  /** Budget that the operations in progress have reserved and not used. */
  ghost function Unspent(active: Ops): int
    decreases |active|
  {
    if active == map[] then 0
    else
      var p :| p in active;
      MAXOPBLOCKS - |active[p]| + Unspent(active - {p})
  }

  ghost predicate GoodList(size: nat, start: nat, l: seq<nat>) {
    |l| <= LOGBLOCKS && Distinct(l) && forall i :: 0 <= i < |l| ==> Home(size, start, l[i])
  }

  ghost predicate GoodDisk(disk: Disk, start: nat) {
    start + LOGBLOCKS < |disk| && At(disk, start)[0] <= LOGBLOCKS && GoodList(|disk|, start, Head(disk, start))
  }

  /** The reservation of begin_op: the blocks in the log and the budget still promised to
      operations fit the log together, and nothing is active while the log commits. */
  ghost predicate Reserved(lh: seq<nat>, active: Ops, phase: Phase) {
    && |lh| + Unspent(active) <= LOGBLOCKS
    && (forall p :: p in active ==> |active[p]| <= MAXOPBLOCKS && forall b :: b in active[p] ==> b in lh)
    && (!phase.Ready? ==> active == map[])
  }

  /** A buffer is in order: its reference count is exact, only its holder can have
      unlogged changes, and unless it is pinned or being changed it agrees with the disk. */
  predicate BufOk(f: Buf, pinned: bool, client: bool, ops: set<Pid>, block: Block) {
    && f.refcnt == |f.users| + (if pinned then 1 else 0)
    && (f.holder.Some? ==> f.holder.value in f.users)
    && (f.dirty ==> f.valid && f.holder.Some? && f.holder.value in ops)
    && (!client ==> f.users == {})
    && (f.valid && !f.dirty && !pinned ==> f.data == block)
    && (!f.valid ==> f.users != {} && !pinned)
  }

  predicate BufAt(s: State, b: nat) {
    b < |s.disk| && b in s.cache &&
    BufOk(s.cache[b], Pinned(s.lh, s.phase, b), Home(|s.disk|, s.start, b) && !Recovering(s.phase),
          s.active.Keys, At(s.disk, b))
  }

  ghost predicate CacheOk(s: State) {
    && (forall b {:trigger BufAt(s, b)} :: b in s.cache ==> BufAt(s, b))
    && (forall b {:trigger Pinned(s.lh, s.phase, b)} :: Pinned(s.lh, s.phase, b) ==> b in s.cache)
    && |s.cache| <= NBUF
  }

  /** The first n log blocks hold the contents of their home block. */
  ghost predicate Logged(disk: Disk, start: nat, cache: Cache, lh: seq<nat>, n: nat) {
    n <= |lh| && forall i :: 0 <= i < n ==> LogBlock(disk, start, i) == Contents(disk, cache, lh[i])
  }

  /** The first n home blocks on disk hold the contents of their log block. */
  ghost predicate Installed(disk: Disk, start: nat, lh: seq<nat>, n: nat) {
    n <= |lh| && forall i :: 0 <= i < n ==> LogBlock(disk, start, i) == At(disk, lh[i])
  }

  /** How far the log, the header and the home blocks on disk have got. */
  ghost predicate DiskOk(s: State) {
    match s.phase
    case Boot => s.lh == []
    case Ready => Head(s.disk, s.start) == []
    case Erased => Head(s.disk, s.start) == [] && s.lh == []
    case Copying(k) => Head(s.disk, s.start) == [] && Logged(s.disk, s.start, s.cache, s.lh, k)
    case Installing(k) =>
      && Head(s.disk, s.start) == s.lh
      && Logged(s.disk, s.start, s.cache, s.lh, |s.lh|) && Installed(s.disk, s.start, s.lh, k)
    case Replay(k) => Head(s.disk, s.start) == s.lh && Installed(s.disk, s.start, s.lh, k)
  }

  ghost predicate Inv(s: State) {
    && GoodDisk(s.disk, s.start) && GoodList(|s.disk|, s.start, s.lh)
    && Reserved(s.lh, s.active, s.phase) && CacheOk(s) && DiskOk(s)
  }

  /** A freshly made file system image, booted: the log is empty. */
  ghost function Fresh(start: nat): (s: State)
    ensures Inv(s)
  {
    var s := State(seq(start + LOGBLOCKS + 1, _ => ZeroBlock()), start, map[], [], map[], Ready);
    assert Unspent(s.active) == 0 && Head(s.disk, s.start) == [];
    s
  }

  /** The states the system can be in. */
  type Consistent = s: State | Inv(s) ghost witness Fresh(0)

  // ---------------------------------------------------------------- abstraction

  /** The contents block b has once recovery has run on this disk. */
  ghost function Recovered(disk: Disk, start: nat, b: nat): Block {
    if b in Head(disk, start) then LogBlock(disk, start, Find(Head(disk, start), b)) else At(disk, b)
  }

  /** The contents that a reader of block b gets now, or gets once recovery is over. */
  ghost function Visible(s: State, b: nat): Block {
    if Recovering(s.phase) then Recovered(s.disk, s.start, b) else Contents(s.disk, s.cache, b)
  }

  /** The specification: a disk whose writes become durable in one piece. */
  datatype Abs = Abs(durable: map<nat, Block>, current: map<nat, Block>, ops: set<Pid>)

  ghost function Durable(disk: Disk, start: nat): map<nat, Block> {
    map b | 0 <= b < |disk| && Home(|disk|, start, b) :: Recovered(disk, start, b)
  }

  ghost function Current(s: State): map<nat, Block> {
    map b | 0 <= b < |s.disk| && Home(|s.disk|, s.start, b) :: Visible(s, b)
  }

  ghost function Abstract(s: State): Abs {
    Abs(Durable(s.disk, s.start), Current(s), s.active.Keys)
  }

  /** The step of the specification that an action amounts to. */
  ghost predicate AbsStep(t: Abs, a: Action, t': Abs) {
    match a
    case BeginOp(p) => p !in t.ops && t' == t.(ops := t.ops + {p})
    case Modify(p, b, v) => p in t.ops && b in t.current && t' == t.(current := t.current[b := v])
    case EndOp(p) => p in t.ops && t' == t.(ops := t.ops - {p})
    case WriteHead => t.ops == {} && t' == t.(durable := t.current)
    case Crash => t' == Abs(t.durable, t.durable, {})
    case _ => t' == t
  }

  // ---------------------------------------------------------------- one step

  lemma {:induction false} UnspentRemove(active: Ops, q: Pid)
    requires q in active
    ensures Unspent(active) == MAXOPBLOCKS - |active[q]| + Unspent(active - {q})
    decreases |active|
  {
    var p :| p in active && Unspent(active) == MAXOPBLOCKS - |active[p]| + Unspent(active - {p});
    if p != q {
      UnspentRemove(active - {p}, q);
      UnspentRemove(active - {q}, p);
      assert active - {p} - {q} == active - {q} - {p};
    }
  }

  lemma {:induction false} UnspentBound(active: Ops)
    requires forall p :: p in active ==> |active[p]| <= MAXOPBLOCKS
    ensures 0 <= Unspent(active) <= |active| * MAXOPBLOCKS
    decreases |active|
  {
    if active != map[] {
      var p :| p in active;
      UnspentRemove(active, p);
      UnspentBound(active - {p});
      assert |active| == |active - {p}| + 1 by { assert active.Keys == (active - {p}).Keys + {p}; }
    }
  }

  lemma UnspentUpdate(active: Ops, p: Pid, l: set<nat>)
    ensures Unspent(active[p := l]) == MAXOPBLOCKS - |l| + Unspent(active - {p})
  {
    UnspentRemove(active[p := l], p);
    assert active[p := l] - {p} == active - {p};
  }


  lemma BufferOf(s: Consistent, b: nat)
    requires b in s.cache
    ensures BufAt(s, b)
  {
  }

  /** A buffer that does not change and keeps its pin stays in order. */
  lemma BufferKept(s: Consistent, t: State, b: nat)
    requires b in s.cache && b in t.cache && t.cache[b] == s.cache[b] && At(t.disk, b) == At(s.disk, b)
    requires |t.disk| == |s.disk| && t.start == s.start && t.active.Keys == s.active.Keys
    requires Pinned(t.lh, t.phase, b) == Pinned(s.lh, s.phase, b) && (Recovering(t.phase) ==> Recovering(s.phase))
    ensures BufAt(t, b)
  {
    BufferOf(s, b);
  }

  lemma RegionUnpinned(s: Consistent, x: nat)
    requires s.start <= x <= s.start + LOGBLOCKS
    ensures x !in s.lh && forall phase :: !Pinned(s.lh, phase, x)
  {
  }

  lemma CleanAt(t: State, b: nat, v: Block)
    requires b < |t.disk| && b in t.cache && t.cache[b] == Clean(v) && At(t.disk, b) == v && !Pinned(t.lh, t.phase, b)
    ensures BufAt(t, b)
  {
  }

  lemma KeysChange<V>(m: map<nat, V>, p: nat, v: V)
    ensures m[p := v].Keys == m.Keys + {p} && (m - {p}).Keys == m.Keys - {p}
  {
  }

  lemma ContentsUpdate(disk: Disk, cache: Cache, b: nat, f: Buf)
    requires (if f.valid then f.data else At(disk, b)) == Contents(disk, cache, b)
    ensures forall c :: Contents(disk, cache[b := f], c) == Contents(disk, cache, c)
  {
  }

  lemma SameCurrent(s: State, t: State)
    requires |s.disk| == |t.disk| && s.start == t.start
    requires forall b :: Home(|s.disk|, s.start, b) ==> Visible(s, b) == Visible(t, b)
    ensures Current(s) == Current(t)
  {
  }

  lemma SameDurable(s: State, t: State)
    requires |s.disk| == |t.disk| && s.start == t.start
    requires forall b :: Home(|s.disk|, s.start, b) ==>
      Recovered(s.disk, s.start, b) == Recovered(t.disk, t.start, b)
    ensures Durable(s.disk, s.start) == Durable(t.disk, t.start)
  {
  }

  lemma BufferCache(s: Consistent, b: nat, f: Buf)
    requires b < |s.disk| && |s.cache.Keys + {b}| <= NBUF
    requires BufAt(s.(cache := s.cache[b := f]), b)
    ensures CacheOk(s.(cache := s.cache[b := f]))
  {
    var t := s.(cache := s.cache[b := f]);
    forall c | c in t.cache ensures BufAt(t, c) {
      if c != b { BufferKept(s, t, c); }
    }
    KeysChange(s.cache, b, f);
  }

  /** Replacing one buffer, without changing what a reader of its block sees. */
  lemma BufferStep(s: Consistent, b: nat, f: Buf)
    requires b < |s.disk| && |s.cache.Keys + {b}| <= NBUF
    requires BufAt(s.(cache := s.cache[b := f]), b)
    requires (if f.valid then f.data else At(s.disk, b)) == Contents(s.disk, s.cache, b)
    ensures Inv(s.(cache := s.cache[b := f]))
    ensures Abstract(s.(cache := s.cache[b := f])) == Abstract(s)
  {
    var t := s.(cache := s.cache[b := f]);
    BufferCache(s, b, f);
    ContentsUpdate(s.disk, s.cache, b, f);
    SameCurrent(s, t);
  }

  lemma StepBget(s: Consistent, p: Pid, b: nat)
    requires CanBget(s, p, b)
    ensures Inv(DoBget(s, p, b)) && Abstract(DoBget(s, p, b)) == Abstract(s)
  {
    assert b in s.cache ==> BufAt(s, b) && s.cache.Keys + {b} == s.cache.Keys;
    BufferStep(s, b, DoBget(s, p, b).cache[b]);
  }

  lemma StepLock(s: Consistent, p: Pid, b: nat)
    requires CanLock(s, p, b)
    ensures Inv(DoLock(s, p, b)) && Abstract(DoLock(s, p, b)) == Abstract(s)
  {
    assert BufAt(s, b) && s.cache.Keys + {b} == s.cache.Keys;
    BufferStep(s, b, DoLock(s, p, b).cache[b]);
  }

  lemma StepFill(s: Consistent, p: Pid, b: nat)
    requires CanFill(s, p, b)
    ensures Inv(DoFill(s, b)) && Abstract(DoFill(s, b)) == Abstract(s)
  {
    assert BufAt(s, b) && s.cache.Keys + {b} == s.cache.Keys;
    BufferStep(s, b, DoFill(s, b).cache[b]);
  }

  lemma StepBrelse(s: Consistent, p: Pid, b: nat)
    requires CanBrelse(s, p, b)
    ensures Inv(DoBrelse(s, p, b)) && Abstract(DoBrelse(s, p, b)) == Abstract(s)
  {
    assert BufAt(s, b) && s.cache.Keys + {b} == s.cache.Keys;
    BufferStep(s, b, DoBrelse(s, p, b).cache[b]);
  }

  lemma EvictCache(s: Consistent, b: nat)
    requires CanEvict(s, b)
    ensures CacheOk(DoEvict(s, b)) && Contents(s.disk, s.cache, b) == At(s.disk, b)
    ensures !Pinned(s.lh, s.phase, b) && s.cache[b].users == {}
  {
    var t := DoEvict(s, b);
    BufferOf(s, b);
    forall c | c in t.cache ensures BufAt(t, c) {
      BufferKept(s, t, c);
    }
    SubsetSize(t.cache.Keys, s.cache.Keys);
  }

  /** Only a buffer that is neither pinned by the log nor in use is recycled. */
  lemma StepEvict(s: Consistent, b: nat)
    requires CanEvict(s, b)
    ensures !Pinned(s.lh, s.phase, b) && s.cache[b].users == {}
    ensures Inv(DoEvict(s, b)) && Abstract(DoEvict(s, b)) == Abstract(s)
  {
    EvictCache(s, b);
    EvictContents(s.disk, s.cache, b);
    SameCurrent(s, DoEvict(s, b));
  }

  lemma EvictContents(disk: Disk, cache: Cache, b: nat)
    requires Contents(disk, cache, b) == At(disk, b)
    ensures forall c :: Contents(disk, cache - {b}, c) == Contents(disk, cache, c)
  {
  }

  lemma StepModify(s: Consistent, p: Pid, b: nat, v: Block)
    requires CanModify(s, p, b)
    ensures Inv(DoModify(s, b, v))
    ensures Abstract(DoModify(s, b, v)) == Abstract(s).(current := Abstract(s).current[b := v])
  {
    var t := DoModify(s, b, v);
    BufferOf(s, b);
    forall c | c in t.cache ensures BufAt(t, c) {
      if c != b { BufferKept(s, t, c); }
    }
    assert t.cache.Keys == s.cache.Keys;
    CurrentUpdate(s, b, t.cache[b]);
  }

  lemma CurrentUpdate(s: State, b: nat, f: Buf)
    requires !Recovering(s.phase) && Home(|s.disk|, s.start, b) && f.valid
    ensures Current(s.(cache := s.cache[b := f])) == Current(s)[b := f.data]
  {
  }

  lemma BeginOpReserves(s: Consistent, p: Pid)
    requires CanBeginOp(s, p)
    ensures Reserved(s.lh, DoBeginOp(s, p).active, s.phase)
  {
    ReserveNew(s.lh, s.active, p);
  }

  /** A new operation's budget is what begin_op has counted on: every active operation, this one
      included, spends at most MAXOPBLOCKS. */
  lemma ReserveNew(lh: seq<nat>, active: Ops, p: Pid)
    requires p !in active && |lh| + (|active| + 1) * MAXOPBLOCKS <= LOGBLOCKS && forall q ::
      q in active ==> |active[q]| <= MAXOPBLOCKS
    ensures |lh| + Unspent(active[p := {}]) <= LOGBLOCKS
  {
    UnspentUpdate(active, p, {});
    assert active - {p} == active;
    UnspentBound(active);
  }

  lemma StepBeginOp(s: Consistent, p: Pid)
    requires CanBeginOp(s, p)
    ensures Inv(DoBeginOp(s, p))
    ensures Abstract(DoBeginOp(s, p)) == Abstract(s).(ops := s.active.Keys + {p})
  {
    var t := DoBeginOp(s, p);
    BeginOpReserves(s, p);
    KeysChange(s.active, p, {});
    forall c | c in s.cache ensures BufAt(t, c) {
      BufferOf(s, c);
    }
    SameCurrent(s, t);
  }

  lemma SpendOne(lh: seq<nat>, active: Ops, phase: Phase, p: Pid, b: nat)
    requires Reserved(lh, active, phase) && p in active && |active[p]| < MAXOPBLOCKS
    ensures |lh| < LOGBLOCKS
    ensures Reserved(if b in lh then lh else lh + [b], active[p := active[p] + {b}], phase)
  {
    if b in active[p] {
      assert active[p] + {b} == active[p];
    } else {
      assert |active[p] + {b}| == |active[p]| + 1;
    }
    UnspentRemove(active, p);
    UnspentBound(active - {p});
    UnspentUpdate(active, p, active[p] + {b});
  }

  /** With budget left, log_write reaches neither of its two panics. */
  lemma LogWriteHasRoom(s: Consistent, p: Pid, b: nat)
    requires CanLogWrite(s, p, b)
    ensures |s.lh| < LOGBLOCKS && |s.active| >= 1
    ensures Reserved(DoLogWrite(s, p, b).lh, DoLogWrite(s, p, b).active, s.phase)
  {
    SpendOne(s.lh, s.active, s.phase, p, b);
    assert s.active.Keys == (s.active - {p}).Keys + {p};
  }

  lemma LogWriteKeeps(s: Consistent, p: Pid, b: nat, c: nat)
    requires CanLogWrite(s, p, b) && c in s.cache
    ensures BufAt(DoLogWrite(s, p, b), c)
  {
    KeysChange(s.active, p, s.active[p] + {b});
    BufferOf(s, c);
  }

  lemma LogWriteShape(s: Consistent, p: Pid, b: nat)
    requires CanLogWrite(s, p, b)
    ensures s.phase.Ready? && DoLogWrite(s, p, b).phase.Ready?
    ensures DoLogWrite(s, p, b).active.Keys == s.active.Keys && DoLogWrite(s, p, b).cache.Keys == s.cache.Keys
  {
    KeysChange(s.active, p, s.active[p] + {b});
    assert s.active.Keys + {p} == s.active.Keys && s.cache.Keys + {b} == s.cache.Keys;
  }

  /** A block that is listed after a log_write is the one logged, or was listed before. */
  lemma LogWritePins(s: Consistent, p: Pid, b: nat, c: nat)
    requires CanLogWrite(s, p, b) && s.phase.Ready? && c in DoLogWrite(s, p, b).lh
    ensures c in s.cache
  {
    if c != b { assert Pinned(s.lh, s.phase, c); }
  }

  lemma LogWriteCache(s: Consistent, p: Pid, b: nat)
    requires CanLogWrite(s, p, b)
    ensures s.phase.Ready? && CacheOk(DoLogWrite(s, p, b)) && DoLogWrite(s, p, b).active.Keys == s.active.Keys
  {
    var t := DoLogWrite(s, p, b);
    LogWriteShape(s, p, b);
    forall c | c in t.cache ensures BufAt(t, c) {
      LogWriteKeeps(s, p, b, c);
    }
    forall c | Pinned(t.lh, t.phase, c) ensures c in t.cache { LogWritePins(s, p, b, c); }
    assert |t.cache| == |t.cache.Keys| == |s.cache|;
  }

  lemma GoodListAppend(size: nat, start: nat, l: seq<nat>, b: nat)
    requires GoodList(size, start, l) && b !in l && Home(size, start, b) && |l| < LOGBLOCKS
    ensures GoodList(size, start, l + [b])
  {
  }

  lemma StepLogWrite(s: Consistent, p: Pid, b: nat)
    requires CanLogWrite(s, p, b)
    ensures Inv(DoLogWrite(s, p, b)) && Abstract(DoLogWrite(s, p, b)) == Abstract(s)
  {
    var t := DoLogWrite(s, p, b);
    LogWriteHasRoom(s, p, b);
    LogWriteCache(s, p, b);
    if b !in s.lh {
      GoodListAppend(|s.disk|, s.start, s.lh, b);
    }
    ContentsUpdate(s.disk, s.cache, b, t.cache[b]);
    SameCurrent(s, t);
  }

  lemma EndOpCache(s: Consistent, p: Pid)
    requires CanEndOp(s, p)
    ensures s.phase.Ready? && CacheOk(DoEndOp(s, p))
  {
    var t := DoEndOp(s, p);
    KeysChange(s.active, p, {});
    forall c | c in s.cache ensures BufAt(t, c) {
      BufferOf(s, c);
    }
    forall c | Pinned(t.lh, t.phase, c) ensures c in t.cache { assert Pinned(s.lh, s.phase, c); }
  }

  /** end_op finds no commit in progress, so its panic is not reached. */
  lemma StepEndOp(s: Consistent, p: Pid)
    requires CanEndOp(s, p)
    ensures s.phase.Ready? && Inv(DoEndOp(s, p))
    ensures Abstract(DoEndOp(s, p)) == Abstract(s).(ops := s.active.Keys - {p})
  {
    var t := DoEndOp(s, p);
    UnspentRemove(s.active, p);
    UnspentBound(s.active - {p});
    KeysChange(s.active, p, {});
    EndOpCache(s, p);
    SameCurrent(s, t);
  }

  // ---------------------------------------------------------------- commit and recovery

  /** A bwrite into the log region, through a buffer that stays cached. */
  lemma RegionCache(s: Consistent, t: State, x: nat, v: Block)
    requires s.start <= x <= s.start + LOGBLOCKS && t.start == s.start && t.active == s.active
    requires x in s.cache && t.disk == s.disk[x := v] && t.cache == s.cache[x := Clean(v)]
    requires forall b :: Pinned(t.lh, t.phase, b) == Pinned(s.lh, s.phase, b)
    requires Recovering(t.phase) ==> Recovering(s.phase)
    ensures CacheOk(t)
  {
    RegionUnpinned(s, x);
    forall c | c in t.cache ensures BufAt(t, c) {
      if c != x { BufferKept(s, t, c); }
    }
    assert t.cache.Keys == s.cache.Keys;
  }

  lemma StepFetch(s: Consistent, b: nat)
    requires CanFetch(s, b)
    ensures Inv(DoFetch(s, b)) && Abstract(DoFetch(s, b)) == Abstract(s)
  {
    if !Home(|s.disk|, s.start, b) { RegionUnpinned(s, b); }
    BufferStep(s, b, Clean(At(s.disk, b)));
  }

  /** Writing a block of the log area leaves every home block and the header alone. */
  lemma LogAreaWrite(disk: Disk, start: nat, i: nat, v: Block)
    requires i < LOGBLOCKS && start + LOGBLOCKS < |disk|
    ensures Head(disk[start + 1 + i := v], start) == Head(disk, start)
    ensures forall b :: Home(|disk|, start, b) ==> At(disk[start + 1 + i := v], b) == At(disk, b)
    ensures forall j: nat :: j != i ==> LogBlock(disk[start + 1 + i := v], start, j) == LogBlock(disk, start, j)
    ensures LogBlock(disk[start + 1 + i := v], start, i) == v
  {
  }

  lemma CopyBlockLogged(disk: Disk, start: nat, cache: Cache, lh: seq<nat>, k: nat)
    requires start + LOGBLOCKS < |disk| && GoodList(|disk|, start, lh) && k < |lh| && Logged(disk, start, cache, lh, k)
    ensures var v := Contents(disk, cache, lh[k]);
      Logged(disk[start + 1 + k := v], start, cache[start + 1 + k := Clean(v)], lh, k + 1)
  {
    LogAreaWrite(disk, start, k, Contents(disk, cache, lh[k]));
  }

  lemma StepCopyBlock(s: Consistent)
    requires CanCopyBlock(s)
    ensures Inv(DoCopyBlock(s)) && Abstract(DoCopyBlock(s)) == Abstract(s)
  {
    CopyBlockCache(s);
    CopyBlockLogged(s.disk, s.start, s.cache, s.lh, s.phase.done);
    CopyBlockView(s);
  }

  lemma CopyBlockCache(s: Consistent)
    requires CanCopyBlock(s)
    ensures CacheOk(DoCopyBlock(s))
  {
    RegionCache(s, DoCopyBlock(s), s.start + 1 + s.phase.done, Contents(s.disk, s.cache, s.lh[s.phase.done]));
  }

  lemma CopyBlockView(s: Consistent)
    requires CanCopyBlock(s)
    ensures GoodDisk(DoCopyBlock(s).disk, s.start) && Head(DoCopyBlock(s).disk, s.start) == Head(s.disk, s.start)
    ensures Abstract(DoCopyBlock(s)) == Abstract(s)
  {
    LogAreaWrite(s.disk, s.start, s.phase.done, Contents(s.disk, s.cache, s.lh[s.phase.done]));
    SameCurrent(s, DoCopyBlock(s));
    SameDurable(s, DoCopyBlock(s));
  }

  /** Writing the header block leaves the log blocks and every home block alone. */
  lemma HeadWrite(disk: Disk, start: nat, h: Block)
    requires start + LOGBLOCKS < |disk|
    ensures Head(disk[start := h], start) == DecodeHead(h)
    ensures forall b :: Home(|disk|, start, b) ==> At(disk[start := h], b) == At(disk, b)
    ensures forall j: nat :: LogBlock(disk[start := h], start, j) == LogBlock(disk, start, j)
  {
  }

  lemma HeadRoundTrip(h: Block, lh: seq<nat>)
    requires |lh| <= LOGBLOCKS
    ensures DecodeHead(EncodeHead(h, lh)) == lh && EncodeHead(h, lh)[0] == |lh|
  {
  }

  /** struct logheader: the number of blocks, then the blocks' numbers; the rest stays. */
  lemma HeadLayout(h: Block, lh: seq<nat>, i: nat)
    requires |lh| <= LOGBLOCKS && i < WORDS
    ensures EncodeHead(h, lh)[i] == if i == 0 then |lh| else if i <= |lh| then lh[i - 1] else h[i]
  {
  }

  /** Outside an operation, a block that is not in the log agrees with the disk. */
  lemma UnloggedClean(s: Consistent, b: nat)
    requires s.active == map[] && !Pinned(s.lh, s.phase, b)
    ensures Contents(s.disk, s.cache, b) == At(s.disk, b)
  {
    assert b in s.cache ==> BufAt(s, b);
  }

  /** The header write makes exactly the visible contents durable. */
  lemma WriteHeadCommits(s: Consistent)
    requires CanWriteHead(s)
    ensures forall b :: Home(|s.disk|, s.start, b) ==>
      Recovered(DoWriteHead(s).disk, s.start, b) == Contents(s.disk, s.cache, b)
  {
    var h := EncodeHead(Contents(s.disk, s.cache, s.start), s.lh);
    HeadRoundTrip(Contents(s.disk, s.cache, s.start), s.lh);
    HeadWrite(s.disk, s.start, h);
    forall b | Home(|s.disk|, s.start, b)
      ensures Recovered(DoWriteHead(s).disk, s.start, b) == Contents(s.disk, s.cache, b)
    {
      if b !in s.lh {
        UnloggedClean(s, b);
      }
    }
  }

  lemma WriteHeadDisk(s: Consistent)
    requires CanWriteHead(s)
    ensures GoodDisk(DoWriteHead(s).disk, s.start) && DiskOk(DoWriteHead(s))
  {
    HeadRoundTrip(Contents(s.disk, s.cache, s.start), s.lh);
    HeadWrite(s.disk, s.start, EncodeHead(Contents(s.disk, s.cache, s.start), s.lh));
  }

  lemma WriteHeadView(s: Consistent)
    requires CanWriteHead(s)
    ensures Durable(DoWriteHead(s).disk, s.start) == Current(s) && Current(DoWriteHead(s)) == Current(s)
  {
    WriteHeadCommits(s);
    HeadWrite(s.disk, s.start, EncodeHead(Contents(s.disk, s.cache, s.start), s.lh));
    SameCurrent(s, DoWriteHead(s));
  }

  lemma StepWriteHead(s: Consistent)
    requires CanWriteHead(s)
    ensures Inv(DoWriteHead(s))
    ensures Abstract(DoWriteHead(s)) == Abstract(s).(durable := Abstract(s).current)
  {
    assert s.lh[0..] == s.lh;
    RegionCache(s, DoWriteHead(s), s.start, EncodeHead(Contents(s.disk, s.cache, s.start), s.lh));
    WriteHeadDisk(s);
    WriteHeadView(s);
  }

  /** Writing a home block leaves the log area and the header alone. */
  lemma HomeWrite(disk: Disk, start: nat, x: nat, v: Block)
    requires start + LOGBLOCKS < |disk| && Home(|disk|, start, x)
    ensures Head(disk[x := v], start) == Head(disk, start) && At(disk[x := v], start) == At(disk, start)
    ensures forall j: nat :: j < LOGBLOCKS ==> LogBlock(disk[x := v], start, j) == LogBlock(disk, start, j)
    ensures forall b: nat :: b != x ==> At(disk[x := v], b) == At(disk, b)
    ensures At(disk[x := v], x) == v
  {
  }

  /** Buffers of the log region agree with the disk, so install_trans reads what write_log wrote. */
  lemma RegionClean(s: Consistent, i: nat)
    requires i < LOGBLOCKS
    ensures Contents(s.disk, s.cache, s.start + 1 + i) == LogBlock(s.disk, s.start, i)
    ensures Contents(s.disk, s.cache, s.start) == At(s.disk, s.start)
  {
    var l := s.start + 1 + i;
    assert l in s.cache ==> BufAt(s, l);
    assert s.start in s.cache ==> BufAt(s, s.start);
    assert !Pinned(s.lh, s.phase, l) && !Pinned(s.lh, s.phase, s.start);
  }

  /** A header lists the block being installed, so its durable contents do not depend on
      what its home block holds. */
  lemma InstallDurable(disk: Disk, start: nat, x: nat, v: Block)
    requires GoodDisk(disk, start) && x in Head(disk, start)
    ensures forall b :: Home(|disk|, start, b) ==> Recovered(disk[x := v], start, b) == Recovered(disk, start, b)
  {
    HomeWrite(disk, start, x, v);
  }

  lemma InstallExtends(disk: Disk, start: nat, lh: seq<nat>, k: nat)
    requires start + LOGBLOCKS < |disk| && GoodList(|disk|, start, lh) && k < |lh| && Installed(disk, start, lh, k)
    ensures Installed(disk[lh[k] := LogBlock(disk, start, k)], start, lh, k + 1)
  {
    HomeWrite(disk, start, lh[k], LogBlock(disk, start, k));
  }

  lemma UnpinNext(lh: seq<nat>, k: nat)
    requires Distinct(lh) && k < |lh|
    ensures forall c :: Pinned(lh, Installing(k + 1), c) <==> Pinned(lh, Installing(k), c) && c != lh[k]
  {
    assert lh[k..] == [lh[k]] + lh[k + 1..];
  }

  lemma InstallBlockKeeps(s: Consistent, c: nat)
    requires CanInstallBlock(s) && c in s.cache && c != s.lh[s.phase.done]
    ensures BufAt(DoInstallBlock(s), c)
  {
    UnpinNext(s.lh, s.phase.done);
    BufferKept(s, DoInstallBlock(s), c);
  }

  lemma InstallBlockTarget(s: Consistent)
    requires CanInstallBlock(s)
    ensures BufAt(DoInstallBlock(s), s.lh[s.phase.done])
  {
    BufferOf(s, s.lh[s.phase.done]);
    UnpinNext(s.lh, s.phase.done);
  }

  lemma InstallBlockPins(s: Consistent, c: nat)
    requires CanInstallBlock(s) && Pinned(DoInstallBlock(s).lh, DoInstallBlock(s).phase, c)
    ensures c in s.cache
  {
    UnpinNext(s.lh, s.phase.done);
    assert Pinned(s.lh, s.phase, c);
  }

  lemma InstallBlockCache(s: Consistent)
    requires CanInstallBlock(s)
    ensures CacheOk(DoInstallBlock(s))
  {
    var b, t := s.lh[s.phase.done], DoInstallBlock(s);
    InstallBlockTarget(s);
    forall c | c in t.cache ensures BufAt(t, c) {
      if c != b { InstallBlockKeeps(s, c); }
    }
    assert t.cache.Keys == s.cache.Keys && |t.cache| == |t.cache.Keys|;
    forall c | Pinned(t.lh, t.phase, c) ensures c in t.cache { InstallBlockPins(s, c); }
  }

  lemma InstallContents(disk: Disk, cache: Cache, b: nat, f: Buf)
    requires b < |disk| && f.valid && f.data == Contents(disk, cache, b)
    ensures forall c :: Contents(disk[b := f.data], cache[b := f], c) == Contents(disk, cache, c)
  {
  }

  /** What InstallBlock writes home is what the pinned buffer already holds. */
  lemma InstallBlockView(s: Consistent)
    requires CanInstallBlock(s)
    ensures Contents(s.disk, s.cache, s.start + 1 + s.phase.done) == LogBlock(s.disk, s.start, s.phase.done)
    ensures forall c :: Contents(DoInstallBlock(s).disk, DoInstallBlock(s).cache, c) == Contents(s.disk, s.cache, c)
  {
    var k := s.phase.done;
    RegionClean(s, k);
    BufferOf(s, s.lh[k]);
    InstallContents(s.disk, s.cache, s.lh[k], DoInstallBlock(s).cache[s.lh[k]]);
  }

  lemma InstallBlockDisk(s: Consistent)
    requires CanInstallBlock(s)
    ensures GoodDisk(DoInstallBlock(s).disk, s.start) && DiskOk(DoInstallBlock(s))
    ensures Durable(DoInstallBlock(s).disk, s.start) == Durable(s.disk, s.start)
  {
    var k := s.phase.done;
    InstallBlockView(s);
    HomeWrite(s.disk, s.start, s.lh[k], LogBlock(s.disk, s.start, k));
    InstallExtends(s.disk, s.start, s.lh, k);
    InstallDurable(s.disk, s.start, s.lh[k], LogBlock(s.disk, s.start, k));
    SameDurable(s, DoInstallBlock(s));
  }

  lemma StepInstallBlock(s: Consistent)
    requires CanInstallBlock(s)
    ensures Inv(DoInstallBlock(s)) && Abstract(DoInstallBlock(s)) == Abstract(s)
  {
    InstallBlockView(s);
    InstallBlockCache(s);
    InstallBlockDisk(s);
    SameCurrent(s, DoInstallBlock(s));
  }

  /** Once every listed block is home, the header no longer matters. */
  lemma ErasedDurable(disk: Disk, start: nat, lh: seq<nat>, h: Block)
    requires GoodDisk(disk, start) && Head(disk, start) == lh && Installed(disk, start, lh, |lh|) && DecodeHead(h) == []
    ensures forall b :: Home(|disk|, start, b) ==>
      Recovered(disk, start, b) == At(disk, b) && Recovered(disk[start := h], start, b) == At(disk, b)
  {
    HeadWrite(disk, start, h);
  }

  lemma EraseHeadView(s: Consistent)
    requires CanEraseHead(s)
    ensures forall b :: Home(|s.disk|, s.start, b) ==> Visible(DoEraseHead(s), b) == Visible(s, b)
    ensures forall b :: Home(|s.disk|, s.start, b) ==>
      Recovered(DoEraseHead(s).disk, s.start, b) == Recovered(s.disk, s.start, b)
  {
    var h := EncodeHead(Contents(s.disk, s.cache, s.start), []);
    HeadRoundTrip(Contents(s.disk, s.cache, s.start), []);
    ErasedDurable(s.disk, s.start, s.lh, h);
    HeadWrite(s.disk, s.start, h);
    forall b | Home(|s.disk|, s.start, b) ensures Visible(DoEraseHead(s), b) == Visible(s, b) {
      UnloggedClean(s, b);
    }
  }

  lemma StepEraseHead(s: Consistent)
    requires CanEraseHead(s)
    ensures Inv(DoEraseHead(s)) && Abstract(DoEraseHead(s)) == Abstract(s)
  {
    var t := DoEraseHead(s);
    var h := EncodeHead(Contents(s.disk, s.cache, s.start), []);
    HeadRoundTrip(Contents(s.disk, s.cache, s.start), []);
    HeadWrite(s.disk, s.start, h);
    RegionCache(s, t, s.start, h);
    EraseHeadView(s);
    SameCurrent(s, t);
    SameDurable(s, t);
  }

  lemma StepFinish(s: Consistent)
    requires CanFinish(s)
    ensures Inv(DoFinish(s)) && Abstract(DoFinish(s)) == Abstract(s)
  {
    var t := DoFinish(s);
    forall c | c in s.cache ensures BufAt(t, c) {
      BufferOf(s, c);
    }
    SameCurrent(s, t);
  }

  lemma StepReadHead(s: Consistent)
    requires CanReadHead(s)
    ensures Inv(DoReadHead(s)) && Abstract(DoReadHead(s)) == Abstract(s)
  {
    var t := DoReadHead(s);
    RegionClean(s, 0);
    forall c | c in s.cache ensures BufAt(t, c) {
      BufferOf(s, c);
    }
    SameCurrent(s, t);
  }

  lemma ReplayBlockCache(s: Consistent)
    requires CanReplayBlock(s)
    ensures CacheOk(DoReplayBlock(s))
  {
    var b, v, t := s.lh[s.phase.done], Contents(s.disk, s.cache, s.start + 1 + s.phase.done), DoReplayBlock(s);
    HomeWrite(s.disk, s.start, b, v);
    CleanAt(t, b, v);
    forall c | c in t.cache && c != b ensures BufAt(t, c) {
      BufferKept(s, t, c);
    }
    assert t.cache.Keys == s.cache.Keys;
  }

  lemma ReplayBlockDisk(s: Consistent)
    requires CanReplayBlock(s)
    ensures GoodDisk(DoReplayBlock(s).disk, s.start) && DiskOk(DoReplayBlock(s))
  {
    var k := s.phase.done;
    RegionClean(s, k);
    HomeWrite(s.disk, s.start, s.lh[k], LogBlock(s.disk, s.start, k));
    InstallExtends(s.disk, s.start, s.lh, k);
  }

  lemma StepReplayBlock(s: Consistent)
    requires CanReplayBlock(s)
    ensures Inv(DoReplayBlock(s)) && Abstract(DoReplayBlock(s)) == Abstract(s)
  {
    ReplayBlockCache(s);
    ReplayBlockDisk(s);
    ReplayBlockView(s);
  }

  lemma ReplayRecovered(s: Consistent)
    requires CanReplayBlock(s)
    ensures forall b :: Home(|s.disk|, s.start, b) ==>
      Recovered(DoReplayBlock(s).disk, s.start, b) == Recovered(s.disk, s.start, b)
  {
    InstallDurable(s.disk, s.start, s.lh[s.phase.done], Contents(s.disk, s.cache, s.start + 1 + s.phase.done));
  }

  lemma ReplayBlockView(s: Consistent)
    requires CanReplayBlock(s)
    ensures Abstract(DoReplayBlock(s)) == Abstract(s)
  {
    ReplayRecovered(s);
    RecoveringView(s, DoReplayBlock(s));
  }

  /** During recovery clients see what recovery will produce. */
  lemma RecoveringView(s: State, t: State)
    requires Recovering(s.phase) && Recovering(t.phase) && |t.disk| == |s.disk| && t.start == s.start
    requires t.active == s.active
    requires forall b :: Home(|s.disk|, s.start, b) ==> Recovered(t.disk, s.start, b) == Recovered(s.disk, s.start, b)
    ensures Abstract(t) == Abstract(s)
  {
    SameCurrent(s, t);
    SameDurable(s, t);
  }

  lemma StepCrash(s: Consistent)
    ensures Inv(DoCrash(s)) && Abstract(DoCrash(s)) == Abs(Abstract(s).durable, Abstract(s).durable, {})
  {
    var t := DoCrash(s);
    assert Unspent(t.active) == 0;
    assert Current(t) == Durable(t.disk, t.start);
  }

  /** One action of the machine is one step of the specification. */
  lemma Step(s: Consistent, a: Action)
    requires Enabled(s, a)
    ensures Inv(Apply(s, a))
    ensures AbsStep(Abstract(s), a, Abstract(Apply(s, a)))
  {
    match a
    case BeginOp(p) => StepBeginOp(s, p);
    case Bget(p, b) => StepBget(s, p, b);
    case Lock(p, b) => StepLock(s, p, b);
    case Fill(p, b) => StepFill(s, p, b);
    case Modify(p, b, v) => StepModify(s, p, b, v);
    case LogWrite(p, b) => StepLogWrite(s, p, b);
    case Brelse(p, b) => StepBrelse(s, p, b);
    case Evict(b) => StepEvict(s, b);
    case EndOp(p) => StepEndOp(s, p);
    case Fetch(b) => StepFetch(s, b);
    case CopyBlock => StepCopyBlock(s);
    case WriteHead => StepWriteHead(s);
    case InstallBlock => StepInstallBlock(s);
    case EraseHead => StepEraseHead(s);
    case Finish => StepFinish(s);
    case ReadHead => StepReadHead(s);
    case ReplayBlock => StepReplayBlock(s);
    case Crash => StepCrash(s);
  }

  // ---------------------------------------------------------------- whole runs

  /** A disk as mkfs leaves it, with an empty log, before the first boot. */
  ghost predicate Initial(s: State) {
    && s.start + LOGBLOCKS < |s.disk| && At(s.disk, s.start)[0] == 0
    && s.cache == map[] && s.lh == [] && s.active == map[] && s.phase.Boot?
  }

  ghost predicate StepAt(states: seq<State>, acts: seq<Action>, i: nat) {
    i < |acts| && i + 1 < |states| ==>
      Enabled(states[i], acts[i]) && states[i + 1] == Apply(states[i], acts[i])
  }

  /** Any interleaving of processes, commits, crashes and recoveries. */
  ghost predicate Run(states: seq<State>, acts: seq<Action>) {
    && |states| == |acts| + 1 && Initial(states[0])
    && forall i: nat :: StepAt(states, acts, i)
  }

  /** Durable and current contents of a transactional disk. */
  datatype Expectation = Expectation(durable: map<nat, Block>, current: map<nat, Block>)

  ghost function ExpectNext(e: Expectation, a: Action): Expectation {
    match a
    case Modify(_, b, v) => e.(current := e.current[b := v])
    case WriteHead => e.(durable := e.current)
    case Crash => e.(current := e.durable)
    case _ => e
  }

  /** What a transactional disk holds after a sequence of actions: computed from the
      actions alone, without caches, logs or headers. */
  ghost function Expected(start: map<nat, Block>, acts: seq<Action>): Expectation {
    if acts == [] then Expectation(start, start)
    else ExpectNext(Expected(start, acts[..|acts| - 1]), acts[|acts| - 1])
  }

  /** The home blocks as they are on the disk itself. */
  ghost function HomeContents(s: State): map<nat, Block> {
    map b | 0 <= b < |s.disk| && Home(|s.disk|, s.start, b) :: At(s.disk, b)
  }

  lemma EmptyLogContents(s: State)
    requires Head(s.disk, s.start) == []
    ensures Durable(s.disk, s.start) == HomeContents(s)
    ensures s.phase.Boot? ==> Current(s) == HomeContents(s)
  {
  }

  lemma InitialConsistent(s: State)
    requires Initial(s)
    ensures Inv(s) && Abstract(s) == Abs(HomeContents(s), HomeContents(s), {})
  {
    assert Unspent(s.active) == 0 && Head(s.disk, s.start) == [];
    EmptyLogContents(s);
  }

  lemma RunAt(states: seq<State>, acts: seq<Action>, n: nat)
    requires Run(states, acts) && n < |acts|
    ensures Enabled(states[n], acts[n]) && states[n + 1] == Apply(states[n], acts[n])
  {
    assert StepAt(states, acts, n);
  }

  ghost predicate Meets(s: State, e: Expectation) {
    Durable(s.disk, s.start) == e.durable && Current(s) == e.current
  }

  lemma StepMeets(s: Consistent, a: Action, e: Expectation)
    requires Enabled(s, a) && Meets(s, e)
    ensures Inv(Apply(s, a)) && Meets(Apply(s, a), ExpectNext(e, a))
  {
    Step(s, a);
  }

  /** Every run behaves like the transactional disk: at every point the contents that
      recovery would produce, and the contents that readers see, are the expected ones. */
  lemma {:induction false} RunRefines(states: seq<State>, acts: seq<Action>, n: nat)
    requires Run(states, acts) && n <= |acts|
    ensures Inv(states[n]) && Meets(states[n], Expected(HomeContents(states[0]), acts[..n]))
  {
    if n == 0 {
      InitialConsistent(states[0]);
    } else {
      RunRefines(states, acts, n - 1);
      RunAt(states, acts, n - 1);
      StepMeets(states[n - 1], acts[n - 1], Expected(HomeContents(states[0]), acts[..n - 1]));
      assert acts[..n][..n - 1] == acts[..n - 1];
    }
  }

  lemma ReadyDisk(s: Consistent)
    requires s.phase.Ready?
    ensures Durable(s.disk, s.start) == HomeContents(s)
  {
    EmptyLogContents(s);
  }

  /** When recovery has completed (and whenever no commit is under way) every home block on
      disk holds the contents as of the last header write: all of a transaction that reached
      its header write, nothing of one that did not, however often recovery was cut short. */
  lemma RecoveryIsAtomic(states: seq<State>, acts: seq<Action>, n: nat)
    requires Run(states, acts) && n <= |acts| && states[n].phase.Ready?
    ensures HomeContents(states[n]) == Expected(HomeContents(states[0]), acts[..n]).durable
  {
    RunRefines(states, acts, n);
    ReadyDisk(states[n]);
  }

  lemma HeldIsCurrent(s: Consistent, p: Pid, b: nat)
    requires Holds(s, p, b) && s.cache[b].valid
    ensures b in Current(s) && Current(s)[b] == s.cache[b].data
  {
    BufferOf(s, b);
  }

  /** The buffer that bread hands out holds the last contents written to its block. */
  lemma BreadReturnsLatest(states: seq<State>, acts: seq<Action>, n: nat, p: Pid, b: nat)
    requires Run(states, acts) && n <= |acts|
    requires Holds(states[n], p, b) && states[n].cache[b].valid
    ensures b in Expected(HomeContents(states[0]), acts[..n]).current
    ensures states[n].cache[b].data == Expected(HomeContents(states[0]), acts[..n]).current[b]
  {
    RunRefines(states, acts, n);
    HeldIsCurrent(states[n], p, b);
  }

  lemma ReservationAt(s: Consistent, a: Action)
    requires Enabled(s, a)
    ensures !s.phase.Ready? ==> s.active == map[]
    ensures |s.lh| + Unspent(s.active) <= LOGBLOCKS && Distinct(s.lh)
    ensures a.LogWrite? ==> |s.lh| < LOGBLOCKS && |s.active| >= 1
    ensures a.EndOp? ==> s.phase.Ready?
  {
    if a.LogWrite? {
      LogWriteHasRoom(s, a.p, a.b);
    }
  }

  /** In every run: nothing is active during a commit, so what a header write makes durable
      are complete operations; the log never overflows its reservation; and the panics of
      log_write and end_op are not reached. */
  lemma ReservationHolds(states: seq<State>, acts: seq<Action>, n: nat)
    requires Run(states, acts) && n < |acts|
    ensures !states[n].phase.Ready? ==> states[n].active == map[]
    ensures |states[n].lh| + Unspent(states[n].active) <= LOGBLOCKS && Distinct(states[n].lh)
    ensures acts[n].LogWrite? ==> |states[n].lh| < LOGBLOCKS && |states[n].active| >= 1
    ensures acts[n].EndOp? ==> states[n].phase.Ready?
  {
    RunRefines(states, acts, n);
    RunAt(states, acts, n);
    ReservationAt(states[n], acts[n]);
  }

  // ---------------------------------------------------------------- buffers for the commit

  function Elements(l: seq<nat>): set<nat> {
    set b | b in l
  }

  lemma {:induction false} ListSetSize(l: seq<nat>)
    requires Distinct(l)
    ensures |Elements(l)| == |l|
  {
    if l == [] {
      assert Elements(l) == {};
    } else {
      var init, last := l[..|l| - 1], l[|l| - 1];
      ListSetSize(init);
      assert last !in init && l == init + [last];
      assert Elements(l) == Elements(init) + {last};
    }
  }

  /** The blocks whose buffer bget cannot recycle: those pinned by the log and those that some
      process is using. */
  ghost function Busy(s: State): set<nat> {
    set b | b in s.cache && (Pinned(s.lh, s.phase, b) || s.cache[b].users != {})
  }

  lemma BusyIsReferenced(s: Consistent, b: nat)
    requires b in s.cache
    ensures CanEvict(s, b) <==> b !in Busy(s)
  {
    BufferOf(s, b);
  }

  lemma Outside(a: set<nat>, b: set<nat>) returns (x: nat)
    requires |b| < |a|
    ensures x in a && x !in b
  {
    if a <= b { SubsetSize(a, b); }
    x :| x in a && x !in b;
  }

  /** bget can have a buffer for another block exactly when fewer than NBUF blocks are pinned by
      the log or in use. */
  lemma SpareBuffer(s: Consistent)
    ensures (|s.cache| < NBUF || exists b :: CanEvict(s, b)) <==> |Busy(s)| < NBUF
  {
    SubsetSize(Busy(s), s.cache.Keys);
    if |Busy(s)| < |s.cache| {
      var b := Outside(s.cache.Keys, Busy(s));
      BusyIsReferenced(s, b);
    } else {
      AllBusy(s);
      forall b | b in s.cache ensures !CanEvict(s, b) { BusyIsReferenced(s, b); }
    }
  }

  lemma AllBusy(s: State)
    requires |Busy(s)| >= |s.cache|
    ensures Busy(s) == s.cache.Keys
  {
    assert s.cache.Keys == Busy(s) + (s.cache.Keys - Busy(s));
  }

  /** While write_log copies, the pinned blocks are those that the log lists, so that the blocks
      in lh together with the blocks in use decide. */
  lemma BusyWhileCopying(s: Consistent)
    requires s.phase.Ready? || s.phase.Copying?
    ensures Busy(s) == Elements(s.lh) + set b | b in s.cache && s.cache[b].users != {}
  {
    forall b | b in s.lh ensures b in s.cache { assert Pinned(s.lh, s.phase, b); }
  }

  /** The log region is read by the committer only, so none of its blocks is ever busy. */
  lemma RegionNotBusy(s: Consistent, x: nat)
    requires s.start <= x <= s.start + LOGBLOCKS
    ensures x !in Busy(s)
  {
    RegionUnpinned(s, x);
    if x in s.cache { BufferOf(s, x); }
  }

  /** write_log's and write_head's bread of a block of the log region panics in bget exactly when
      NBUF blocks are in the log or in use: those are then all the buffers there are.  LOGBLOCKS
      equals NBUF, so a completely full log, which log_write accepts, is enough; so are a log
      with fewer blocks and readers that use the rest, since fileread calls readi outside any
      operation. */
  lemma CommitNeedsSpareBuffer(s: Consistent, x: nat)
    requires !Recovering(s.phase) && s.start <= x <= s.start + LOGBLOCKS
    ensures x !in s.cache && |s.cache| == NBUF && !(exists b :: CanEvict(s, b)) <==> |Busy(s)| >= NBUF
  {
    SpareBuffer(s);
    RegionNotBusy(s, x);
    if |Busy(s)| >= NBUF {
      AllBusy(s);
    }
  }
}
