/** kfork, kexit, reparent, kwait and kkill of kernel/proc.c: how processes come and go.

  A step is what a process does under wait_lock or a process lock between two points where
  another process can interfere.  wakeup and the going to sleep in sleep are single steps here;
  SleepWakeup looks inside them. */
module Lifecycle {
  import opened Basics

  datatype Status = Unused | Used | Live | Zombie(xstate: int)

  /** Where a process is: kfork with child c; kexit at entry i of reparent's loop, in its
      wakeup(initproc), before the wakeup of the parent, before the state change, before the
      release of wait_lock, before the last swtch; kwait at entry i of its loop with the
      current value of havekids, with a zombie found, asleep, woken up. */
  datatype Pc =
    | Normal | Forking(c: nat) | Forked(c: nat)
    | ExScan(i: nat) | ExWake(i: nat) | ExTell | ExSet | ExRel | Dying | Dead
    | WScan(i: nat, kids: bool) | WReap(i: nat) | WSleep | WReacq
    | Absent

  /** init is the index of initproc; wl the holder of wait_lock.  exited and reaped record by
      pid the status passed to kexit, and the one that kwait returned.  nextpid grows without
      end; the kernel's is an int, which is the same until 2 to the 31st processes have been
      created. */
  datatype State = State(init: nat, sts: seq<Status>, pars: seq<Option<nat>>, pcs: seq<Pc>, pids: seq<nat>,
                         makers: seq<nat>,
                         wl: Option<nat>, nextpid: nat, exited: map<nat, int>, reaped: map<nat, int>)

  predicate HoldsWl(pc: Pc) {
    pc.ExScan? || pc.ExWake? || pc.ExTell? || pc.ExSet? || pc.ExRel? || pc.WScan? || pc.WReap?
  }

  /** A process at pc may still be the parent of process q: reparent has not got to q. */
  predicate MayParent(pc: Pc, q: nat) {
    match pc
    case ExScan(i) => i <= q
    case ExWake(i) => i < q
    case ExTell => false
    case ExSet => false
    case _ => true
  }

  predicate Exiting(pc: Pc) {
    pc.ExScan? || pc.ExWake? || pc.ExTell? || pc.ExSet?
  }

  // ---------------------------------------------------------------- invariant

  predicate Sized(s: State) {
    && |s.pars| == |s.sts| && |s.pcs| == |s.sts| && |s.pids| == |s.sts| && |s.makers| == |s.sts|
    && s.init < |s.sts| && s.sts[s.init] == Live && !Exiting(s.pcs[s.init]) && s.pars[s.init] == None
  }

  predicate StateFits(st: Status, pc: Pc) {
    match st
    case Unused => pc == Absent
    case Used => pc == Absent
    case Live => !pc.Absent? && !pc.ExRel? && !pc.Dying? && !pc.Dead?
    case Zombie(_) => pc.ExRel? || pc.Dying? || pc.Dead?
  }

  predicate StateOk(sts: seq<Status>, pcs: seq<Pc>, q: nat) {
    q < |sts| && q < |pcs| ==> StateFits(sts[q], pcs[q])
  }

  /** The parent of q is alive, and has not passed q in reparent. */
  predicate ParentOk(init: nat, sts: seq<Status>, pars: seq<Option<nat>>, pcs: seq<Pc>, q: nat) {
    q < |sts| && q < |pars| ==>
      match pars[q]
      case None => sts[q] == Unused || sts[q] == Used || q == init
      case Some(p) => p < |sts| && p < |pcs| && p != q && sts[p] == Live && sts[q] != Unused && MayParent(pcs[p], q)
  }

  /** A process in kfork owns the child it makes. */
  predicate ForkOk(sts: seq<Status>, pars: seq<Option<nat>>, makers: seq<nat>, pcs: seq<Pc>, p: nat) {
    p < |pcs| && (pcs[p].Forking? || pcs[p].Forked?) ==>
      var c := pcs[p].c;
      && c < |sts| && c < |pars| && c < |makers| && sts[c] == Used && makers[c] == p
      && pars[c] == if pcs[p].Forking? then None else Some(p)
  }

  predicate WlHolderOk(pcs: seq<Pc>, wl: Option<nat>, p: nat) {
    p < |pcs| && HoldsWl(pcs[p]) ==> wl == Some(p)
  }

  predicate ZombieChild(sts: seq<Status>, pars: seq<Option<nat>>, p: nat, q: nat) {
    q < |sts| && q < |pars| && pars[q] == Some(p) && sts[q].Zombie?
  }

  /** reparent has given a process to init and is about to wake init up. */
  predicate InitPending(init: nat, pcs: seq<Pc>, wl: Option<nat>, p: nat) {
    p == init && wl.Some? && wl.value < |pcs| && pcs[wl.value].ExWake?
  }

  /** A process asleep in kwait has no zombie child, but for one that it will be told of. */
  predicate SleepOk(init: nat, sts: seq<Status>, pars: seq<Option<nat>>, pcs: seq<Pc>, wl: Option<nat>, p: nat,
      q: nat) {
    p < |pcs| && pcs[p].WSleep? && ZombieChild(sts, pars, p, q) ==> InitPending(init, pcs, wl, p)
  }

  /** The children that kwait has passed are no zombies, and counted. */
  predicate ScanOk(sts: seq<Status>, pars: seq<Option<nat>>, pcs: seq<Pc>, p: nat, q: nat) {
    p < |pcs| && pcs[p].WScan? && q < pcs[p].i && q < |pars| && pars[q] == Some(p) ==>
      !ZombieChild(sts, pars, p, q) && pcs[p].kids
  }

  /** The child that kwait has found is a zombie, and no longer runs. */
  predicate ReapOk(sts: seq<Status>, pars: seq<Option<nat>>, pcs: seq<Pc>, p: nat) {
    p < |pcs| && pcs[p].WReap? ==> ZombieChild(sts, pars, p, pcs[p].i) && pcs[p].i < |pcs| && pcs[pcs[p].i] == Dead
  }

  /** Whoever is about to become a zombie has woken its parent up. */
  predicate ToldOk(pars: seq<Option<nat>>, pcs: seq<Pc>, p: nat) {
    p < |pcs| && pcs[p].ExSet? && p < |pars| && pars[p].Some? && pars[p].value < |pcs| ==> !pcs[pars[p].value].WSleep?
  }

  /** Pids are unique; zombies have exited with the status they hold, and not been reaped. */
  predicate PidOk(sts: seq<Status>, pids: seq<nat>, nextpid: nat, exited: map<nat, int>, reaped: map<nat, int>, p: nat,
      q: nat) {
    p < |sts| && q < |sts| && p < |pids| && q < |pids| && sts[p] != Unused ==>
      && pids[p] < nextpid && (sts[q] != Unused && pids[p] == pids[q] ==> p == q)
      && (if sts[p].Zombie? then pids[p] in exited && exited[pids[p]] == sts[p].xstate && pids[p] !in reaped
          else pids[p] !in exited)
  }

  predicate IsZombie(sts: seq<Status>, pids: seq<nat>, q: nat, pid: nat) {
    q < |sts| && q < |pids| && sts[q].Zombie? && pids[q] == pid
  }

  /** What was returned is what was passed to kexit, and whatever exited is a zombie or reaped. */
  ghost predicate HistoryOk(sts: seq<Status>, pids: seq<nat>, nextpid: nat, exited: map<nat, int>, reaped: map<nat,
      int>, pid: nat) {
    && (pid in reaped ==> pid in exited && reaped[pid] == exited[pid])
    && (pid in exited ==> pid < nextpid && (pid in reaped || exists q: nat :: IsZombie(sts, pids, q, pid)))
  }

  ghost predicate StatesOk(sts: seq<Status>, pcs: seq<Pc>) {
    forall q: nat :: StateOk(sts, pcs, q)
  }

  ghost predicate ParentsOk(init: nat, sts: seq<Status>, pars: seq<Option<nat>>, pcs: seq<Pc>) {
    forall q: nat :: ParentOk(init, sts, pars, pcs, q)
  }

  ghost predicate ForksOk(sts: seq<Status>, pars: seq<Option<nat>>, makers: seq<nat>, pcs: seq<Pc>) {
    forall p: nat :: ForkOk(sts, pars, makers, pcs, p)
  }

  ghost predicate WlOk(pcs: seq<Pc>, wl: Option<nat>) {
    (wl.Some? ==> wl.value < |pcs| && HoldsWl(pcs[wl.value])) && forall p: nat :: WlHolderOk(pcs, wl, p)
  }

  ghost predicate WaitsOk(init: nat, sts: seq<Status>, pars: seq<Option<nat>>, pcs: seq<Pc>, wl: Option<nat>) {
    && (forall p: nat, q: nat :: SleepOk(init, sts, pars, pcs, wl, p, q))
    && (forall p: nat, q: nat :: ScanOk(sts, pars, pcs, p, q))
    && (forall p: nat :: ReapOk(sts, pars, pcs, p)) && (forall p: nat :: ToldOk(pars, pcs, p))
  }

  ghost predicate PidsOk(sts: seq<Status>, pids: seq<nat>, nextpid: nat, exited: map<nat, int>, reaped: map<nat, int>) {
    && (forall p: nat, q: nat :: PidOk(sts, pids, nextpid, exited, reaped, p, q))
    && (forall pid: nat :: HistoryOk(sts, pids, nextpid, exited, reaped, pid))
  }

  ghost predicate Inv(s: State) {
    && Sized(s) && StatesOk(s.sts, s.pcs) && ParentsOk(s.init, s.sts, s.pars, s.pcs)
    && ForksOk(s.sts, s.pars, s.makers, s.pcs)
    && WlOk(s.pcs, s.wl) && WaitsOk(s.init, s.sts, s.pars, s.pcs, s.wl)
    && PidsOk(s.sts, s.pids, s.nextpid, s.exited, s.reaped)
  }

  ghost function Boot(): (s: State)
    ensures Inv(s)
  {
    State(0, [Live], [None], [Normal], [1], [0], None, 2, map[], map[])
  }

  type Consistent = s: State | Inv(s) ghost witness Boot()

  // ---------------------------------------------------------------- steps

  datatype Action =
    // kfork
    | Alloc(p: nat, c: nat) | ForkFail(p: nat) | SetParent(p: nat) | Start(p: nat)
    // kexit
    | ExitLock(p: nat) | Reparent(p: nat) | WakeInit(p: nat) | WakeParent(p: nat) | SetZombie(p: nat, status: int)
    | ExitUnlock(p: nat) | SwitchOff(p: nat)
    // kwait
    | WaitLock(p: nat) | Scan(p: nat) | Sleep(p: nat) | NoChild(p: nat) | Killed(p: nat) | Reap(p: nat)
    | ReapFail(p: nat)
    // kkill of a process that sleeps in kwait
    | Kill(p: nat)

  predicate At(s: State, p: nat, pc: Pc) {
    p < |s.pcs| && s.pcs[p] == pc
  }

  predicate Enabled(s: State, a: Action) {
    Sized(s) &&
    match a
    case Alloc(p, c) => At(s, p, Normal) && c < |s.sts| && s.sts[c] == Unused
    case ForkFail(p) => p < |s.pcs| && s.pcs[p].Forking? && s.pcs[p].c < |s.sts|
    case SetParent(p) => p < |s.pcs| && s.pcs[p].Forking? && s.pcs[p].c < |s.sts| && s.wl == None
    case Start(p) => p < |s.pcs| && s.pcs[p].Forked? && s.pcs[p].c < |s.sts|
    case ExitLock(p) => At(s, p, Normal) && p != s.init && s.wl == None
    case Reparent(p) => p < |s.pcs| && s.pcs[p].ExScan?
    case WakeInit(p) => p < |s.pcs| && s.pcs[p].ExWake?
    case WakeParent(p) => At(s, p, ExTell) && s.pars[p].Some? && s.pars[p].value < |s.pcs|
    case SetZombie(p, _) => At(s, p, ExSet)
    case ExitUnlock(p) => At(s, p, ExRel)
    case SwitchOff(p) => At(s, p, Dying)
    case WaitLock(p) => (At(s, p, Normal) || At(s, p, WReacq)) && s.wl == None
    case Scan(p) =>
      && p < |s.pcs| && s.pcs[p].WScan? && s.pcs[p].i < |s.sts|
      // acquire(&pp->lock) waits for a child that is still in kexit or swtch
      && (s.pars[s.pcs[p].i] == Some(p) ==> s.pcs[s.pcs[p].i] != Dying && s.pcs[s.pcs[p].i] != ExRel)
    case Sleep(p) => p < |s.pcs| && s.pcs[p].WScan? && s.pcs[p].i >= |s.sts| && s.pcs[p].kids
    case NoChild(p) => p < |s.pcs| && s.pcs[p].WScan? && s.pcs[p].i >= |s.sts| && !s.pcs[p].kids
    case Killed(p) => p < |s.pcs| && s.pcs[p].WScan? && s.pcs[p].i >= |s.sts|
    case Reap(p) => p < |s.pcs| && s.pcs[p].WReap? && s.pcs[p].i < |s.sts| && s.sts[s.pcs[p].i].Zombie?
    case ReapFail(p) => p < |s.pcs| && s.pcs[p].WReap?
    case Kill(p) => At(s, p, WSleep)
  }

  function Move(s: State, p: nat, pc: Pc): State
    requires p < |s.pcs|
  {
    s.(pcs := s.pcs[p := pc])
  }

  /** wakeup(q): q goes on if it sleeps in kwait. */
  function Woken(pc: Pc): Pc {
    if pc == WSleep then WReacq else pc
  }

  function Apply(s: State, a: Action): State
    requires Enabled(s, a)
  {
    match a
    case Alloc(p, c) =>
      Move(s, p, Forking(c)).(sts := s.sts[c := Used], pids := s.pids[c := s.nextpid], makers := s.makers[c := p],
                              nextpid := s.nextpid + 1)
    case ForkFail(p) => Move(s, p, Normal).(sts := s.sts[s.pcs[p].c := Unused])
    case SetParent(p) => Move(s, p, Forked(s.pcs[p].c)).(pars := s.pars[s.pcs[p].c := Some(p)])
    case Start(p) => s.(pcs := s.pcs[p := Normal][s.pcs[p].c := Normal], sts := s.sts[s.pcs[p].c := Live])
    case ExitLock(p) => Move(s, p, ExScan(0)).(wl := Some(p))
    case Reparent(p) =>
      var i := s.pcs[p].i;
      if i >= |s.sts| then Move(s, p, ExTell)
      else if s.pars[i] == Some(p) then Move(s, p, ExWake(i)).(pars := s.pars[i := Some(s.init)])
      else Move(s, p, ExScan(i + 1))
    case WakeInit(p) => s.(pcs := s.pcs[s.init := Woken(s.pcs[s.init])][p := ExScan(s.pcs[p].i + 1)])
    case WakeParent(p) => var q := s.pars[p].value; s.(pcs := s.pcs[q := Woken(s.pcs[q])][p := ExSet])
    case SetZombie(p, status) =>
      Move(s, p, ExRel).(sts := s.sts[p := Zombie(status)], exited := s.exited[s.pids[p] := status])
    case ExitUnlock(p) => Move(s, p, Dying).(wl := None)
    case SwitchOff(p) => Move(s, p, Dead)
    case WaitLock(p) => Move(s, p, WScan(0, false)).(wl := Some(p))
    case Scan(p) =>
      var i := s.pcs[p].i;
      if s.pars[i] == Some(p) then Move(s, p, if s.sts[i].Zombie? then WReap(i) else WScan(i + 1, true))
      else Move(s, p, WScan(i + 1, s.pcs[p].kids))
    case Sleep(p) => Move(s, p, WSleep).(wl := None)
    case NoChild(p) => Move(s, p, Normal).(wl := None)
    case Killed(p) => Move(s, p, Normal).(wl := None)
    case Reap(p) =>
      var q := s.pcs[p].i;
      s.(pcs := s.pcs[p := Normal][q := Absent], sts := s.sts[q := Unused], pars := s.pars[q := None], wl := None,
         reaped := s.reaped[s.pids[q] := s.sts[q].xstate])
    case ReapFail(p) => Move(s, p, Normal).(wl := None)
    case Kill(p) => Move(s, p, WReacq)
  }

  // ---------------------------------------------------------------- kinds of change

  lemma StatesMove(sts: seq<Status>, pcs: seq<Pc>, p: nat, pc: Pc)
    requires StatesOk(sts, pcs) && p < |pcs| == |sts| && StateFits(sts[p], pc)
    ensures StatesOk(sts, pcs[p := pc])
  {
    var n := pcs[p := pc];
    forall q: nat ensures StateOk(sts, n, q) { assert StateOk(sts, pcs, q); }
  }

  lemma ParentsMove(init: nat, sts: seq<Status>, pars: seq<Option<nat>>, pcs: seq<Pc>, p: nat, pc: Pc)
    requires ParentsOk(init, sts, pars, pcs) && p < |pcs|
    requires forall q: nat :: q < |pars| && pars[q] == Some(p) && MayParent(pcs[p], q) ==> MayParent(pc, q)
    ensures ParentsOk(init, sts, pars, pcs[p := pc])
  {
    var n := pcs[p := pc];
    forall q: nat ensures ParentOk(init, sts, pars, n, q) { assert ParentOk(init, sts, pars, pcs, q); }
  }

  lemma ForksMove(sts: seq<Status>, pars: seq<Option<nat>>, makers: seq<nat>, pcs: seq<Pc>, p: nat, pc: Pc)
    requires ForksOk(sts, pars, makers, pcs) && p < |pcs| && !pc.Forking? && !pc.Forked?
    ensures ForksOk(sts, pars, makers, pcs[p := pc])
  {
    var n := pcs[p := pc];
    forall q: nat ensures ForkOk(sts, pars, makers, n, q) { assert ForkOk(sts, pars, makers, pcs, q); }
  }

  lemma WlMove(pcs: seq<Pc>, wl: Option<nat>, p: nat, pc: Pc)
    requires WlOk(pcs, wl) && p < |pcs| && HoldsWl(pc) == HoldsWl(pcs[p])
    ensures WlOk(pcs[p := pc], wl)
  {
    var n := pcs[p := pc];
    forall q: nat ensures WlHolderOk(n, wl, q) { assert WlHolderOk(pcs, wl, q); }
  }

  lemma WlTake(pcs: seq<Pc>, p: nat, pc: Pc)
    requires WlOk(pcs, None) && p < |pcs| && HoldsWl(pc)
    ensures WlOk(pcs[p := pc], Some(p))
  {
    var n := pcs[p := pc];
    forall q: nat ensures WlHolderOk(n, Some(p), q) { assert WlHolderOk(pcs, None, q); }
  }

  lemma WlDrop(pcs: seq<Pc>, wl: Option<nat>, p: nat, pc: Pc)
    requires WlOk(pcs, wl) && p < |pcs| && HoldsWl(pcs[p]) && !HoldsWl(pc)
    ensures WlOk(pcs[p := pc], None)
  {
    assert WlHolderOk(pcs, wl, p);
    var n := pcs[p := pc];
    forall q: nat ensures WlHolderOk(n, None, q) { assert WlHolderOk(pcs, wl, q); }
  }

  /** Program points at which kwait and kexit know nothing about others. */
  predicate Plain(pc: Pc) {
    !pc.WSleep? && !pc.WScan? && !pc.WReap? && !pc.ExSet?
  }

  /** A process moves to a plain point; nobody relied on where it was. */
  lemma WaitsMove(init: nat, sts: seq<Status>, pars: seq<Option<nat>>, pcs: seq<Pc>, wl: Option<nat>, p: nat, pc: Pc,
      wl': Option<nat>)
    requires WaitsOk(init, sts, pars, pcs, wl) && p < |pcs| && Plain(pc) && !pcs[p].Dead?
    requires forall q: nat :: InitPending(init, pcs, wl, q) ==> InitPending(init, pcs[p := pc], wl', q)
    ensures WaitsOk(init, sts, pars, pcs[p := pc], wl')
  {
    var n := pcs[p := pc];
    forall r: nat, q: nat ensures SleepOk(init, sts, pars, n, wl', r, q) && ScanOk(sts, pars, n, r, q) {
      assert SleepOk(init, sts, pars, pcs, wl, r, q) && ScanOk(sts, pars, pcs, r, q);
    }
    forall r: nat ensures ReapOk(sts, pars, n, r) && ToldOk(pars, n, r) {
      assert ReapOk(sts, pars, pcs, r) && ToldOk(pars, pcs, r);
    }
  }

  /** A move of one process that changes nothing but where it is. */
  lemma MoveInv(s: Consistent, p: nat, pc: Pc)
    requires p < |s.pcs| && StateFits(s.sts[p], pc) && !pc.Forking? && !pc.Forked? && HoldsWl(pc) == HoldsWl(s.pcs[p])
    requires Plain(pc) && !s.pcs[p].Dead? && !s.pcs[p].ExWake? && (Exiting(pc) ==> Exiting(s.pcs[p]))
    requires forall q: nat :: q < |s.pars| && s.pars[q] == Some(p) && MayParent(s.pcs[p], q) ==> MayParent(pc, q)
    ensures Inv(Move(s, p, pc))
  {
    StatesMove(s.sts, s.pcs, p, pc);
    ParentsMove(s.init, s.sts, s.pars, s.pcs, p, pc);
    ForksMove(s.sts, s.pars, s.makers, s.pcs, p, pc);
    WlMove(s.pcs, s.wl, p, pc);
    WaitsMove(s.init, s.sts, s.pars, s.pcs, s.wl, p, pc, s.wl);
  }

  /** A process lets go of wait_lock. */
  lemma DropInv(s: Consistent, p: nat, pc: Pc)
    requires p < |s.pcs| && StateFits(s.sts[p], pc) && !pc.Forking? && !pc.Forked? && HoldsWl(s.pcs[p]) && !HoldsWl(pc)
    requires Plain(pc) && !s.pcs[p].ExWake?
    requires forall q: nat :: q < |s.pars| && s.pars[q] == Some(p) && MayParent(s.pcs[p], q) ==> MayParent(pc, q)
    ensures Inv(Move(s, p, pc).(wl := None))
  {
    StatesMove(s.sts, s.pcs, p, pc);
    ParentsMove(s.init, s.sts, s.pars, s.pcs, p, pc);
    ForksMove(s.sts, s.pars, s.makers, s.pcs, p, pc);
    assert WlHolderOk(s.pcs, s.wl, p);
    WlDrop(s.pcs, s.wl, p, pc);
    WaitsMove(s.init, s.sts, s.pars, s.pcs, s.wl, p, pc, None);
  }

  // ---------------------------------------------------------------- kfork

  lemma AllocInv(s: Consistent, p: nat, c: nat)
    requires Enabled(s, Alloc(p, c))
    ensures Inv(Apply(s, Alloc(p, c)))
  {
    var t := Apply(s, Alloc(p, c));
    assert StateOk(s.sts, s.pcs, c) && StateOk(s.sts, s.pcs, p) && ParentOk(s.init, s.sts, s.pars, s.pcs, c);
    forall q: nat ensures StateOk(t.sts, t.pcs, q) && ParentOk(t.init, t.sts, t.pars, t.pcs, q) {
      assert StateOk(s.sts, s.pcs, q) && ParentOk(s.init, s.sts, s.pars, s.pcs, q);
    }
    forall q: nat ensures ForkOk(t.sts, t.pars, t.makers, t.pcs, q) {
      assert ForkOk(s.sts, s.pars, s.makers, s.pcs, q);
    }
    WlMove(s.pcs, s.wl, p, Forking(c));
    AllocWaits(s, p, c);
    AllocPids(s, c);
  }

  lemma AllocWaits(s: Consistent, p: nat, c: nat)
    requires Enabled(s, Alloc(p, c))
    ensures WaitsOk(s.init, s.sts[c := Used], s.pars, s.pcs[p := Forking(c)], s.wl)
  {
    var n, l := s.pcs[p := Forking(c)], s.sts[c := Used];
    forall r: nat, q: nat ensures SleepOk(s.init, l, s.pars, n, s.wl, r, q) && ScanOk(l, s.pars, n, r, q) {
      assert SleepOk(s.init, s.sts, s.pars, s.pcs, s.wl, r, q) && ScanOk(s.sts, s.pars, s.pcs, r, q);
    }
    forall r: nat ensures ReapOk(l, s.pars, n, r) && ToldOk(s.pars, n, r) {
      assert ReapOk(s.sts, s.pars, s.pcs, r) && ToldOk(s.pars, s.pcs, r);
    }
  }

  lemma AllocPids(s: Consistent, c: nat)
    requires c < |s.sts| && s.sts[c] == Unused
    ensures PidsOk(s.sts[c := Used], s.pids[c := s.nextpid], s.nextpid + 1, s.exited, s.reaped)
  {
    var l, k, m := s.sts[c := Used], s.pids[c := s.nextpid], s.nextpid + 1;
    assert HistoryOk(s.sts, s.pids, s.nextpid, s.exited, s.reaped, s.nextpid);
    forall p: nat, q: nat ensures PidOk(l, k, m, s.exited, s.reaped, p, q) {
      assert PidOk(s.sts, s.pids, s.nextpid, s.exited, s.reaped, p, q);
      assert PidOk(s.sts, s.pids, s.nextpid, s.exited, s.reaped, q, q);
    }
    forall pid: nat ensures HistoryOk(l, k, m, s.exited, s.reaped, pid) {
      assert HistoryOk(s.sts, s.pids, s.nextpid, s.exited, s.reaped, pid);
      ZombiesKept(s.sts, s.pids, l, k, pid, c);
    }
  }

  /** A change at c, which is no zombie before or after, leaves the zombies in place. */
  lemma ZombiesKept(sts: seq<Status>, pids: seq<nat>, l: seq<Status>, k: seq<nat>, pid: nat, c: nat)
    requires |l| == |sts| && |k| == |pids| && (c < |sts| ==> !sts[c].Zombie?)
    requires forall q: nat :: q < |sts| && q != c ==> l[q] == sts[q]
    requires forall q: nat :: q < |pids| && q != c ==> k[q] == pids[q]
    ensures (exists q: nat :: IsZombie(sts, pids, q, pid)) ==> exists q: nat :: IsZombie(l, k, q, pid)
  {
    if q: nat :| IsZombie(sts, pids, q, pid) {
      assert IsZombie(l, k, q, pid);
    }
  }

  lemma FailPids(s: Consistent, c: nat, st: Status)
    requires c < |s.sts| && s.sts[c] == Used && (st == Unused || st == Live)
    ensures PidsOk(s.sts[c := st], s.pids, s.nextpid, s.exited, s.reaped)
  {
    var l := s.sts[c := st];
    forall p: nat, q: nat ensures PidOk(l, s.pids, s.nextpid, s.exited, s.reaped, p, q) {
      assert PidOk(s.sts, s.pids, s.nextpid, s.exited, s.reaped, p, q);
    }
    forall pid: nat ensures HistoryOk(l, s.pids, s.nextpid, s.exited, s.reaped, pid) {
      assert HistoryOk(s.sts, s.pids, s.nextpid, s.exited, s.reaped, pid);
      ZombiesKept(s.sts, s.pids, l, s.pids, pid, c);
    }
  }

  /** The child of a fork in progress. */
  lemma ForkChild(s: Consistent, p: nat)
    requires p < |s.pcs| && (s.pcs[p].Forking? || s.pcs[p].Forked?)
    ensures var c := s.pcs[p].c;
      && c < |s.sts| && s.sts[c] == Used && s.pcs[c] == Absent && s.makers[c] == p && c != p && s.sts[p] == Live
      && c != s.init
      && s.pars[c] == (if s.pcs[p].Forking? then None else Some(p))
  {
    assert ForkOk(s.sts, s.pars, s.makers, s.pcs, p) && StateOk(s.sts, s.pcs, s.pcs[p].c) && StateOk(s.sts, s.pcs, p);
  }

  lemma ForkFailPlaces(s: Consistent, p: nat)
    requires Enabled(s, ForkFail(p))
    ensures var t := Apply(s, ForkFail(p));
      StatesOk(t.sts, t.pcs) && ParentsOk(t.init, t.sts, t.pars, t.pcs) && ForksOk(t.sts, t.pars, t.makers, t.pcs)
  {
    var c := s.pcs[p].c;
    var t := Apply(s, ForkFail(p));
    ForkChild(s, p);
    forall q: nat ensures StateOk(t.sts, t.pcs, q) && ParentOk(t.init, t.sts, t.pars, t.pcs, q) {
      assert StateOk(s.sts, s.pcs, q) && ParentOk(s.init, s.sts, s.pars, s.pcs, q);
    }
    forall q: nat ensures ForkOk(t.sts, t.pars, t.makers, t.pcs, q) {
      assert ForkOk(s.sts, s.pars, s.makers, s.pcs, q);
    }
  }

  lemma ForkFailWaits(s: Consistent, p: nat)
    requires Enabled(s, ForkFail(p))
    ensures var t := Apply(s, ForkFail(p)); WaitsOk(t.init, t.sts, t.pars, t.pcs, t.wl)
  {
    var c := s.pcs[p].c;
    var t := Apply(s, ForkFail(p));
    ForkChild(s, p);
    forall r: nat, q: nat
      ensures SleepOk(t.init, t.sts, t.pars, t.pcs, t.wl, r, q) && ScanOk(t.sts, t.pars, t.pcs, r, q)
    {
      assert SleepOk(s.init, s.sts, s.pars, s.pcs, s.wl, r, q) && ScanOk(s.sts, s.pars, s.pcs, r, q);
    }
    forall r: nat ensures ReapOk(t.sts, t.pars, t.pcs, r) && ToldOk(t.pars, t.pcs, r) {
      assert ReapOk(s.sts, s.pars, s.pcs, r) && ToldOk(s.pars, s.pcs, r);
    }
  }

  lemma ForkFailInv(s: Consistent, p: nat)
    requires Enabled(s, ForkFail(p))
    ensures Inv(Apply(s, ForkFail(p)))
  {
    var c := s.pcs[p].c;
    var t := Apply(s, ForkFail(p));
    ForkChild(s, p);
    ForkFailPlaces(s, p);
    WlMove(s.pcs, s.wl, p, Normal);
    FailPids(s, c, Unused);
    ForkFailWaits(s, p);
  }

  lemma SetParentPlaces(s: Consistent, p: nat)
    requires Enabled(s, SetParent(p))
    ensures var t := Apply(s, SetParent(p));
      ParentsOk(t.init, t.sts, t.pars, t.pcs) && ForksOk(t.sts, t.pars, t.makers, t.pcs)
  {
    var c := s.pcs[p].c;
    var t := Apply(s, SetParent(p));
    ForkChild(s, p);
    forall q: nat ensures ParentOk(t.init, t.sts, t.pars, t.pcs, q) {
      assert ParentOk(s.init, s.sts, s.pars, s.pcs, q);
    }
    forall q: nat ensures ForkOk(t.sts, t.pars, t.makers, t.pcs, q) {
      assert ForkOk(s.sts, s.pars, s.makers, s.pcs, q);
    }
  }

  lemma SetParentWaits(s: Consistent, p: nat)
    requires Enabled(s, SetParent(p))
    ensures var t := Apply(s, SetParent(p)); WaitsOk(t.init, t.sts, t.pars, t.pcs, t.wl)
  {
    var c := s.pcs[p].c;
    var t := Apply(s, SetParent(p));
    ForkChild(s, p);
    forall r: nat, q: nat
      ensures SleepOk(t.init, t.sts, t.pars, t.pcs, t.wl, r, q) && ScanOk(t.sts, t.pars, t.pcs, r, q)
    {
      assert SleepOk(s.init, s.sts, s.pars, s.pcs, s.wl, r, q) && ScanOk(s.sts, s.pars, s.pcs, r, q);
      assert WlHolderOk(s.pcs, s.wl, r);
    }
    forall r: nat ensures ReapOk(t.sts, t.pars, t.pcs, r) && ToldOk(t.pars, t.pcs, r) {
      assert ReapOk(s.sts, s.pars, s.pcs, r) && ToldOk(s.pars, s.pcs, r) && WlHolderOk(s.pcs, s.wl, r);
    }
  }

  lemma SetParentInv(s: Consistent, p: nat)
    requires Enabled(s, SetParent(p))
    ensures Inv(Apply(s, SetParent(p)))
  {
    var c := s.pcs[p].c;
    var t := Apply(s, SetParent(p));
    ForkChild(s, p);
    StatesMove(s.sts, s.pcs, p, Forked(c));
    WlMove(s.pcs, s.wl, p, Forked(c));
    SetParentPlaces(s, p);
    SetParentWaits(s, p);
  }

  lemma StartPlaces(s: Consistent, p: nat)
    requires Enabled(s, Start(p))
    ensures var t := Apply(s, Start(p));
      StatesOk(t.sts, t.pcs) && ParentsOk(t.init, t.sts, t.pars, t.pcs) && ForksOk(t.sts, t.pars, t.makers, t.pcs)
  {
    var c := s.pcs[p].c;
    var t := Apply(s, Start(p));
    ForkChild(s, p);
    forall q: nat ensures StateOk(t.sts, t.pcs, q) && ParentOk(t.init, t.sts, t.pars, t.pcs, q) {
      assert StateOk(s.sts, s.pcs, q) && ParentOk(s.init, s.sts, s.pars, s.pcs, q);
    }
    forall q: nat ensures ForkOk(t.sts, t.pars, t.makers, t.pcs, q) {
      assert ForkOk(s.sts, s.pars, s.makers, s.pcs, q);
    }
  }

  lemma StartWaits(s: Consistent, p: nat)
    requires Enabled(s, Start(p))
    ensures var t := Apply(s, Start(p)); WaitsOk(t.init, t.sts, t.pars, t.pcs, t.wl)
  {
    var c := s.pcs[p].c;
    var t := Apply(s, Start(p));
    ForkChild(s, p);
    forall r: nat, q: nat
      ensures SleepOk(t.init, t.sts, t.pars, t.pcs, t.wl, r, q) && ScanOk(t.sts, t.pars, t.pcs, r, q)
    {
      assert SleepOk(s.init, s.sts, s.pars, s.pcs, s.wl, r, q) && ScanOk(s.sts, s.pars, s.pcs, r, q);
    }
    forall r: nat ensures ReapOk(t.sts, t.pars, t.pcs, r) && ToldOk(t.pars, t.pcs, r) {
      assert ReapOk(s.sts, s.pars, s.pcs, r) && ToldOk(s.pars, s.pcs, r);
    }
  }

  lemma StartInv(s: Consistent, p: nat)
    requires Enabled(s, Start(p))
    ensures Inv(Apply(s, Start(p)))
  {
    var c := s.pcs[p].c;
    var t := Apply(s, Start(p));
    ForkChild(s, p);
    StartPlaces(s, p);
    WlMove(s.pcs, s.wl, p, Normal);
    WlMove(s.pcs[p := Normal], s.wl, c, Normal);
    FailPids(s, c, Live);
    StartWaits(s, p);
  }

  // ---------------------------------------------------------------- kexit

  lemma ExitLockInv(s: Consistent, p: nat)
    requires Enabled(s, ExitLock(p))
    ensures Inv(Apply(s, ExitLock(p)))
  {
    assert StateOk(s.sts, s.pcs, p);
    StatesMove(s.sts, s.pcs, p, ExScan(0));
    ParentsMove(s.init, s.sts, s.pars, s.pcs, p, ExScan(0));
    ForksMove(s.sts, s.pars, s.makers, s.pcs, p, ExScan(0));
    WlTake(s.pcs, p, ExScan(0));
    WaitsMove(s.init, s.sts, s.pars, s.pcs, s.wl, p, ExScan(0), Some(p));
  }

  /** Only the holder of wait_lock is in kexit or in kwait's loop. */
  lemma OnlyHolder(s: Consistent, p: nat, r: nat)
    requires p < |s.pcs| && HoldsWl(s.pcs[p])
    ensures s.wl == Some(p) && (r < |s.pcs| && r != p ==> !HoldsWl(s.pcs[r]))
  {
    assert WlHolderOk(s.pcs, s.wl, p) && WlHolderOk(s.pcs, s.wl, r);
  }

  lemma AdoptInv(s: Consistent, p: nat, i: nat)
    requires p < |s.pcs| && s.pcs[p] == ExScan(i) && i < |s.pars| && s.pars[i] == Some(p)
    ensures Inv(Move(s, p, ExWake(i)).(pars := s.pars[i := Some(s.init)]))
  {
    var t := Move(s, p, ExWake(i)).(pars := s.pars[i := Some(s.init)]);
    assert StateOk(s.sts, s.pcs, p) && ParentOk(s.init, s.sts, s.pars, s.pcs, i);
    OnlyHolder(s, p, p);
    StatesMove(s.sts, s.pcs, p, ExWake(i));
    WlMove(s.pcs, s.wl, p, ExWake(i));
    forall q: nat ensures ParentOk(t.init, t.sts, t.pars, t.pcs, q) {
      assert ParentOk(s.init, s.sts, s.pars, s.pcs, q);
    }
    forall q: nat ensures ForkOk(t.sts, t.pars, t.makers, t.pcs, q) {
      assert ForkOk(s.sts, s.pars, s.makers, s.pcs, q);
    }
    forall r: nat, q: nat
      ensures SleepOk(t.init, t.sts, t.pars, t.pcs, t.wl, r, q) && ScanOk(t.sts, t.pars, t.pcs, r, q)
    {
      OnlyHolder(s, p, r);
      assert SleepOk(s.init, s.sts, s.pars, s.pcs, s.wl, r, q) && ScanOk(s.sts, s.pars, s.pcs, r, q);
    }
    forall r: nat ensures ReapOk(t.sts, t.pars, t.pcs, r) && ToldOk(t.pars, t.pcs, r) {
      OnlyHolder(s, p, r);
      assert ReapOk(s.sts, s.pars, s.pcs, r) && ToldOk(s.pars, s.pcs, r);
    }
  }

  lemma ReparentInv(s: Consistent, p: nat)
    requires Enabled(s, Reparent(p))
    ensures Inv(Apply(s, Reparent(p)))
  {
    var i := s.pcs[p].i;
    assert StateOk(s.sts, s.pcs, p);
    if i >= |s.sts| {
      MoveInv(s, p, ExTell);
    } else if s.pars[i] == Some(p) {
      AdoptInv(s, p, i);
    } else {
      MoveInv(s, p, ExScan(i + 1));
    }
  }

  /** A process in kexit wakes process q up and moves on. */
  lemma WakeInv(s: Consistent, p: nat, q: nat, pc: Pc)
    requires p < |s.pcs| && q < |s.pcs| && p != q && Exiting(s.pcs[p]) && Exiting(pc)
    requires forall r: nat :: MayParent(s.pcs[p], r) ==> MayParent(pc, r)
    requires (s.pcs[p].ExWake? ==> q == s.init) && !pc.ExWake? && (pc.ExSet? ==> s.pars[p] == Some(q))
    ensures Inv(s.(pcs := s.pcs[q := Woken(s.pcs[q])][p := pc]))
  {
    var n := s.pcs[q := Woken(s.pcs[q])];
    var t := s.(pcs := n[p := pc]);
    assert StateOk(s.sts, s.pcs, p) && StateOk(s.sts, s.pcs, q);
    OnlyHolder(s, p, q);
    StatesMove(s.sts, s.pcs, q, Woken(s.pcs[q]));
    StatesMove(s.sts, n, p, pc);
    ParentsMove(s.init, s.sts, s.pars, s.pcs, q, Woken(s.pcs[q]));
    ParentsMove(s.init, s.sts, s.pars, n, p, pc);
    ForksKept(s, q);
    ForksMove(s.sts, s.pars, s.makers, n, p, pc);
    WlMove(s.pcs, s.wl, q, Woken(s.pcs[q]));
    WlMove(n, s.wl, p, pc);
    forall r: nat, u: nat
      ensures SleepOk(t.init, t.sts, t.pars, t.pcs, t.wl, r, u) && ScanOk(t.sts, t.pars, t.pcs, r, u)
    {
      OnlyHolder(s, p, r);
      assert SleepOk(s.init, s.sts, s.pars, s.pcs, s.wl, r, u) && ScanOk(s.sts, s.pars, s.pcs, r, u);
    }
    forall r: nat ensures ReapOk(t.sts, t.pars, t.pcs, r) && ToldOk(t.pars, t.pcs, r) {
      OnlyHolder(s, p, r);
      assert ReapOk(s.sts, s.pars, s.pcs, r) && ToldOk(s.pars, s.pcs, r);
    }
  }

  lemma ForksKept(s: Consistent, q: nat)
    requires q < |s.pcs|
    ensures ForksOk(s.sts, s.pars, s.makers, s.pcs[q := Woken(s.pcs[q])])
  {
    var n := s.pcs[q := Woken(s.pcs[q])];
    forall r: nat ensures ForkOk(s.sts, s.pars, s.makers, n, r) { assert ForkOk(s.sts, s.pars, s.makers, s.pcs, r); }
  }

  lemma WakeInitInv(s: Consistent, p: nat)
    requires Enabled(s, WakeInit(p))
    ensures Inv(Apply(s, WakeInit(p)))
  {
    WakeInv(s, p, s.init, ExScan(s.pcs[p].i + 1));
  }

  lemma WakeParentInv(s: Consistent, p: nat)
    requires Enabled(s, WakeParent(p))
    ensures Inv(Apply(s, WakeParent(p)))
  {
    assert ParentOk(s.init, s.sts, s.pars, s.pcs, p);
    WakeInv(s, p, s.pars[p].value, ExSet);
  }

  lemma SetZombiePids(s: Consistent, p: nat, status: int)
    requires p < |s.sts| && s.sts[p] == Live
    ensures PidsOk(s.sts[p := Zombie(status)], s.pids, s.nextpid, s.exited[s.pids[p] := status], s.reaped)
  {
    var l, e := s.sts[p := Zombie(status)], s.exited[s.pids[p] := status];
    assert PidOk(s.sts, s.pids, s.nextpid, s.exited, s.reaped, p, p);
    assert HistoryOk(s.sts, s.pids, s.nextpid, s.exited, s.reaped, s.pids[p]);
    forall r: nat, q: nat ensures PidOk(l, s.pids, s.nextpid, e, s.reaped, r, q) {
      assert PidOk(s.sts, s.pids, s.nextpid, s.exited, s.reaped, r, q);
      assert PidOk(s.sts, s.pids, s.nextpid, s.exited, s.reaped, r, p);
    }
    forall pid: nat ensures HistoryOk(l, s.pids, s.nextpid, e, s.reaped, pid) {
      assert HistoryOk(s.sts, s.pids, s.nextpid, s.exited, s.reaped, pid);
      ZombiesKept(s.sts, s.pids, l, s.pids, pid, p);
      if pid == s.pids[p] { assert IsZombie(l, s.pids, p, pid); }
    }
  }

  lemma SetZombiePlaces(s: Consistent, p: nat, status: int)
    requires Enabled(s, SetZombie(p, status))
    ensures var t := Apply(s, SetZombie(p, status));
      StatesOk(t.sts, t.pcs) && ParentsOk(t.init, t.sts, t.pars, t.pcs) && ForksOk(t.sts, t.pars, t.makers, t.pcs)
  {
    var t := Apply(s, SetZombie(p, status));
    assert StateOk(s.sts, s.pcs, p) && ToldOk(s.pars, s.pcs, p) && ParentOk(s.init, s.sts, s.pars, s.pcs, p);
    OnlyHolder(s, p, p);
    forall q: nat ensures StateOk(t.sts, t.pcs, q) && ParentOk(t.init, t.sts, t.pars, t.pcs, q) {
      assert StateOk(s.sts, s.pcs, q) && ParentOk(s.init, s.sts, s.pars, s.pcs, q);
    }
    forall q: nat ensures ForkOk(t.sts, t.pars, t.makers, t.pcs, q) {
      assert ForkOk(s.sts, s.pars, s.makers, s.pcs, q);
    }
  }

  lemma SetZombieWaits(s: Consistent, p: nat, status: int)
    requires Enabled(s, SetZombie(p, status))
    ensures var t := Apply(s, SetZombie(p, status)); WaitsOk(t.init, t.sts, t.pars, t.pcs, t.wl)
  {
    var t := Apply(s, SetZombie(p, status));
    assert StateOk(s.sts, s.pcs, p) && ToldOk(s.pars, s.pcs, p) && ParentOk(s.init, s.sts, s.pars, s.pcs, p);
    OnlyHolder(s, p, p);
    forall r: nat, q: nat
      ensures SleepOk(t.init, t.sts, t.pars, t.pcs, t.wl, r, q) && ScanOk(t.sts, t.pars, t.pcs, r, q)
    {
      OnlyHolder(s, p, r);
      assert SleepOk(s.init, s.sts, s.pars, s.pcs, s.wl, r, q) && ScanOk(s.sts, s.pars, s.pcs, r, q);
    }
    forall r: nat ensures ReapOk(t.sts, t.pars, t.pcs, r) && ToldOk(t.pars, t.pcs, r) {
      OnlyHolder(s, p, r);
      assert ReapOk(s.sts, s.pars, s.pcs, r) && ToldOk(s.pars, s.pcs, r);
    }
  }

  lemma SetZombieInv(s: Consistent, p: nat, status: int)
    requires Enabled(s, SetZombie(p, status))
    ensures Inv(Apply(s, SetZombie(p, status)))
  {
    var t := Apply(s, SetZombie(p, status));
    assert StateOk(s.sts, s.pcs, p) && ToldOk(s.pars, s.pcs, p) && ParentOk(s.init, s.sts, s.pars, s.pcs, p);
    OnlyHolder(s, p, p);
    SetZombiePlaces(s, p, status);
    WlMove(s.pcs, s.wl, p, ExRel);
    SetZombiePids(s, p, status);
    SetZombieWaits(s, p, status);
  }

  // ---------------------------------------------------------------- kwait

  lemma WaitLockWaits(s: Consistent, p: nat)
    requires Enabled(s, WaitLock(p))
    ensures var t := Apply(s, WaitLock(p)); WaitsOk(t.init, t.sts, t.pars, t.pcs, t.wl)
  {
    var pc := WScan(0, false);
    var t := Apply(s, WaitLock(p));
    assert StateOk(s.sts, s.pcs, p);
    forall r: nat, q: nat
      ensures SleepOk(t.init, t.sts, t.pars, t.pcs, t.wl, r, q) && ScanOk(t.sts, t.pars, t.pcs, r, q)
    {
      assert SleepOk(s.init, s.sts, s.pars, s.pcs, s.wl, r, q) && ScanOk(s.sts, s.pars, s.pcs, r, q);
    }
    forall r: nat ensures ReapOk(t.sts, t.pars, t.pcs, r) && ToldOk(t.pars, t.pcs, r) {
      assert ReapOk(s.sts, s.pars, s.pcs, r) && ToldOk(s.pars, s.pcs, r);
    }
  }

  lemma WaitLockInv(s: Consistent, p: nat)
    requires Enabled(s, WaitLock(p))
    ensures Inv(Apply(s, WaitLock(p)))
  {
    var pc := WScan(0, false);
    var t := Apply(s, WaitLock(p));
    assert StateOk(s.sts, s.pcs, p);
    StatesMove(s.sts, s.pcs, p, pc);
    ParentsMove(s.init, s.sts, s.pars, s.pcs, p, pc);
    ForksMove(s.sts, s.pars, s.makers, s.pcs, p, pc);
    WlTake(s.pcs, p, pc);
    WaitLockWaits(s, p);
  }

  /** kwait's loop moves from one entry to the next, or to a zombie. */
  lemma ScanTo(s: Consistent, p: nat, pc: Pc)
    requires p < |s.pcs| && s.pcs[p].WScan? && (pc.WScan? || pc.WReap?)
    requires pc.WScan? ==> forall q: nat :: q < pc.i && q < |s.pars| && s.pars[q] == Some(p) ==>
      !ZombieChild(s.sts, s.pars, p, q) && pc.kids
    requires pc.WReap? ==> ZombieChild(s.sts, s.pars, p, pc.i) && pc.i < |s.pcs| && s.pcs[pc.i] == Dead
    ensures Inv(Move(s, p, pc))
  {
    var t := Move(s, p, pc);
    assert StateOk(s.sts, s.pcs, p);
    StatesMove(s.sts, s.pcs, p, pc);
    ParentsMove(s.init, s.sts, s.pars, s.pcs, p, pc);
    ForksMove(s.sts, s.pars, s.makers, s.pcs, p, pc);
    WlMove(s.pcs, s.wl, p, pc);
    OnlyHolder(s, p, p);
    forall r: nat, q: nat
      ensures SleepOk(t.init, t.sts, t.pars, t.pcs, t.wl, r, q) && ScanOk(t.sts, t.pars, t.pcs, r, q)
    {
      assert SleepOk(s.init, s.sts, s.pars, s.pcs, s.wl, r, q) && ScanOk(s.sts, s.pars, s.pcs, r, q);
    }
    forall r: nat ensures ReapOk(t.sts, t.pars, t.pcs, r) && ToldOk(t.pars, t.pcs, r) {
      OnlyHolder(s, p, r);
      assert ReapOk(s.sts, s.pars, s.pcs, r) && ToldOk(s.pars, s.pcs, r);
    }
  }

  lemma ScanInv(s: Consistent, p: nat)
    requires Enabled(s, Scan(p))
    ensures Inv(Apply(s, Scan(p)))
  {
    var i, kids := s.pcs[p].i, s.pcs[p].kids;
    assert StateOk(s.sts, s.pcs, i);
    forall q: nat | q < i && q < |s.pars| && s.pars[q] == Some(p) ensures !ZombieChild(s.sts, s.pars, p, q) && kids {
      assert ScanOk(s.sts, s.pars, s.pcs, p, q);
    }
    if s.pars[i] == Some(p) {
      ScanTo(s, p, if s.sts[i].Zombie? then WReap(i) else WScan(i + 1, true));
    } else {
      ScanTo(s, p, WScan(i + 1, kids));
    }
  }

  lemma SleepInv(s: Consistent, p: nat)
    requires Enabled(s, Sleep(p))
    ensures Inv(Apply(s, Sleep(p)))
  {
    var t := Apply(s, Sleep(p));
    assert StateOk(s.sts, s.pcs, p);
    OnlyHolder(s, p, p);
    StatesMove(s.sts, s.pcs, p, WSleep);
    ParentsMove(s.init, s.sts, s.pars, s.pcs, p, WSleep);
    ForksMove(s.sts, s.pars, s.makers, s.pcs, p, WSleep);
    WlDrop(s.pcs, s.wl, p, WSleep);
    forall r: nat, q: nat
      ensures SleepOk(t.init, t.sts, t.pars, t.pcs, t.wl, r, q) && ScanOk(t.sts, t.pars, t.pcs, r, q)
    {
      assert SleepOk(s.init, s.sts, s.pars, s.pcs, s.wl, r, q) && ScanOk(s.sts, s.pars, s.pcs, r, q);
    }
    forall r: nat ensures ReapOk(t.sts, t.pars, t.pcs, r) && ToldOk(t.pars, t.pcs, r) {
      OnlyHolder(s, p, r);
      assert ReapOk(s.sts, s.pars, s.pcs, r) && ToldOk(s.pars, s.pcs, r);
    }
  }

  lemma ReapPids(s: Consistent, q: nat)
    requires q < |s.sts| && s.sts[q].Zombie?
    ensures PidsOk(s.sts[q := Unused], s.pids, s.nextpid, s.exited, s.reaped[s.pids[q] := s.sts[q].xstate])
  {
    var l, e := s.sts[q := Unused], s.reaped[s.pids[q] := s.sts[q].xstate];
    assert PidOk(s.sts, s.pids, s.nextpid, s.exited, s.reaped, q, q);
    forall r: nat, u: nat ensures PidOk(l, s.pids, s.nextpid, s.exited, e, r, u) {
      assert PidOk(s.sts, s.pids, s.nextpid, s.exited, s.reaped, r, u);
      assert PidOk(s.sts, s.pids, s.nextpid, s.exited, s.reaped, r, q);
    }
    forall pid: nat ensures HistoryOk(l, s.pids, s.nextpid, s.exited, e, pid) {
      assert HistoryOk(s.sts, s.pids, s.nextpid, s.exited, s.reaped, pid);
      if pid in s.exited && pid !in e {
        var u: nat :| IsZombie(s.sts, s.pids, u, pid);
        assert IsZombie(l, s.pids, u, pid);
      }
    }
  }

  lemma ReapPlaces(s: Consistent, p: nat)
    requires Enabled(s, Reap(p))
    ensures var t := Apply(s, Reap(p));
      StatesOk(t.sts, t.pcs) && ParentsOk(t.init, t.sts, t.pars, t.pcs) && ForksOk(t.sts, t.pars, t.makers, t.pcs)
  {
    var i := s.pcs[p].i;
    var t := Apply(s, Reap(p));
    assert StateOk(s.sts, s.pcs, p) && StateOk(s.sts, s.pcs, i) && ReapOk(s.sts, s.pars, s.pcs, p);
    OnlyHolder(s, p, p);
    forall q: nat ensures StateOk(t.sts, t.pcs, q) && ParentOk(t.init, t.sts, t.pars, t.pcs, q) {
      assert StateOk(s.sts, s.pcs, q) && ParentOk(s.init, s.sts, s.pars, s.pcs, q);
    }
    forall q: nat ensures ForkOk(t.sts, t.pars, t.makers, t.pcs, q) {
      assert ForkOk(s.sts, s.pars, s.makers, s.pcs, q);
    }
  }

  lemma ReapInv(s: Consistent, p: nat)
    requires Enabled(s, Reap(p))
    ensures Inv(Apply(s, Reap(p)))
  {
    var i := s.pcs[p].i;
    var t := Apply(s, Reap(p));
    assert StateOk(s.sts, s.pcs, p) && StateOk(s.sts, s.pcs, i) && ReapOk(s.sts, s.pars, s.pcs, p);
    OnlyHolder(s, p, p);
    ReapPlaces(s, p);
    WlDrop(s.pcs, s.wl, p, Normal);
    WlMove(s.pcs[p := Normal], None, i, Absent);
    ReapPids(s, i);
    ReapWaits(s, p);
  }

  /** Reaping leaves the other parents' waits as they should be. */
  lemma ReapWaits(s: Consistent, p: nat)
    requires Enabled(s, Reap(p))
    ensures var t := Apply(s, Reap(p)); WaitsOk(t.init, t.sts, t.pars, t.pcs, t.wl)
  {
    var i := s.pcs[p].i;
    var t := Apply(s, Reap(p));
    assert StateOk(s.sts, s.pcs, p) && StateOk(s.sts, s.pcs, i) && ReapOk(s.sts, s.pars, s.pcs, p);
    forall r: nat, q: nat
      ensures SleepOk(t.init, t.sts, t.pars, t.pcs, t.wl, r, q) && ScanOk(t.sts, t.pars, t.pcs, r, q)
    {
      OnlyHolder(s, p, r);
      assert SleepOk(s.init, s.sts, s.pars, s.pcs, s.wl, r, q) && ScanOk(s.sts, s.pars, s.pcs, r, q);
    }
    forall r: nat ensures ReapOk(t.sts, t.pars, t.pcs, r) && ToldOk(t.pars, t.pcs, r) {
      OnlyHolder(s, p, r);
      assert ReapOk(s.sts, s.pars, s.pcs, r) && ToldOk(s.pars, s.pcs, r);
    }
  }

  lemma GiveUpInv(s: Consistent, p: nat)
    requires p < |s.pcs| && (s.pcs[p].WScan? || s.pcs[p].WReap?)
    ensures Inv(Move(s, p, Normal).(wl := None))
  {
    assert StateOk(s.sts, s.pcs, p);
    DropInv(s, p, Normal);
  }

  /** Whatever step is taken, the invariant survives. */
  lemma Step(s: Consistent, a: Action)
    requires Enabled(s, a)
    ensures Inv(Apply(s, a))
  {
    match a
    case Alloc(p, c) => AllocInv(s, p, c);
    case ForkFail(p) => ForkFailInv(s, p);
    case SetParent(p) => SetParentInv(s, p);
    case Start(p) => StartInv(s, p);
    case ExitLock(p) => ExitLockInv(s, p);
    case Reparent(p) => ReparentInv(s, p);
    case WakeInit(p) => WakeInitInv(s, p);
    case WakeParent(p) => WakeParentInv(s, p);
    case SetZombie(p, status) => SetZombieInv(s, p, status);
    case ExitUnlock(p) => assert StateOk(s.sts, s.pcs, p); DropInv(s, p, Dying);
    case SwitchOff(p) => assert StateOk(s.sts, s.pcs, p); MoveInv(s, p, Dead);
    case WaitLock(p) => WaitLockInv(s, p);
    case Scan(p) => ScanInv(s, p);
    case Sleep(p) => SleepInv(s, p);
    case NoChild(p) => GiveUpInv(s, p);
    case Killed(p) => GiveUpInv(s, p);
    case Reap(p) => ReapInv(s, p);
    case ReapFail(p) => GiveUpInv(s, p);
    case Kill(p) => assert StateOk(s.sts, s.pcs, p); MoveInv(s, p, WReacq);
  }

  // ---------------------------------------------------------------- accounts

  ghost predicate HasChild(pars: seq<Option<nat>>, p: nat, n: nat) {
    exists q: nat :: q < n && q < |pars| && pars[q] == Some(p)
  }

  /** kwait has counted children only where there are some. */
  ghost predicate KidsOk(pars: seq<Option<nat>>, pcs: seq<Pc>, p: nat) {
    p < |pcs| && pcs[p].WScan? && pcs[p].kids ==> HasChild(pars, p, pcs[p].i)
  }

  /** An entry that is being made has somebody in kfork who makes it. */
  predicate UsedOk(sts: seq<Status>, makers: seq<nat>, pcs: seq<Pc>, c: nat) {
    c < |sts| && c < |makers| && sts[c] == Used ==>
      makers[c] < |pcs| && (pcs[makers[c]] == Forking(c) || pcs[makers[c]] == Forked(c))
  }

  /** A parent is the process that called kfork, or initproc. */
  predicate MakerOk(init: nat, pars: seq<Option<nat>>, makers: seq<nat>, q: nat) {
    q < |pars| && q < |makers| && pars[q].Some? ==> pars[q].value == init || pars[q].value == makers[q]
  }

  ghost predicate Accounted(s: State) {
    && (forall p: nat :: KidsOk(s.pars, s.pcs, p)) && (forall c: nat :: UsedOk(s.sts, s.makers, s.pcs, c))
    && forall q: nat :: MakerOk(s.init, s.pars, s.makers, q)
  }

  /** Only the holder of wait_lock changes parents, so a loop of kwait can rely on them. */
  lemma KidsStep(s: Consistent, a: Action, p: nat)
    requires Enabled(s, a) && KidsOk(s.pars, s.pcs, p)
    ensures KidsOk(Apply(s, a).pars, Apply(s, a).pcs, p)
  {
    if a == Scan(p) {
      ScanKids(s, p);
    } else if p < |s.pcs| && Apply(s, a).pcs[p].WScan? && Apply(s, a).pcs[p].kids {
      ScannerAlone(s, a, p);
    }
  }

  lemma ScanKids(s: Consistent, p: nat)
    requires Enabled(s, Scan(p)) && KidsOk(s.pars, s.pcs, p)
    ensures KidsOk(Apply(s, Scan(p)).pars, Apply(s, Scan(p)).pcs, p)
  {
    var i := s.pcs[p].i;
    if s.pars[i] != Some(p) && s.pcs[p].kids {
      var q: nat :| q < i && q < |s.pars| && s.pars[q] == Some(p);
      assert HasChild(s.pars, p, i + 1);
    }
  }

  lemma ScannerAlone(s: Consistent, a: Action, p: nat)
    requires Enabled(s, a) && a != Scan(p) && p < |s.pcs|
    requires Apply(s, a).pcs[p].WScan? && Apply(s, a).pcs[p].kids
    ensures Apply(s, a).pcs[p] == s.pcs[p] && Apply(s, a).pars == s.pars
  {
    assert WlHolderOk(s.pcs, s.wl, p) && WlHolderOk(s.pcs, s.wl, a.p);
  }

  predicate OfFork(a: Action) {
    a.Alloc? || a.ForkFail? || a.SetParent? || a.Start?
  }

  lemma UsedStep(s: Consistent, a: Action, c: nat)
    requires Enabled(s, a) && UsedOk(s.sts, s.makers, s.pcs, c)
    ensures UsedOk(Apply(s, a).sts, Apply(s, a).makers, Apply(s, a).pcs, c)
  {
    if OfFork(a) { UsedFork(s, a, c); } else { UsedOther(s, a, c); }
  }

  lemma UsedFork(s: Consistent, a: Action, c: nat)
    requires Enabled(s, a) && UsedOk(s.sts, s.makers, s.pcs, c) && OfFork(a)
    ensures UsedOk(Apply(s, a).sts, Apply(s, a).makers, Apply(s, a).pcs, c)
  {
    if c < |s.sts| && s.sts[c] == Used {
      assert StateOk(s.sts, s.pcs, s.makers[c]);
      assert ForkOk(s.sts, s.pars, s.makers, s.pcs, s.makers[c]) && ForkOk(s.sts, s.pars, s.makers, s.pcs, a.p);
    }
  }

  lemma UsedOther(s: Consistent, a: Action, c: nat)
    requires Enabled(s, a) && UsedOk(s.sts, s.makers, s.pcs, c) && !OfFork(a)
    ensures UsedOk(Apply(s, a).sts, Apply(s, a).makers, Apply(s, a).pcs, c)
  {
    if c < |s.sts| && Apply(s, a).sts[c] == Used { ForkerStays(s, a, s.makers[c]); }
  }

  /** Nobody else moves a process that is in kfork. */
  lemma ForkerStays(s: Consistent, a: Action, m: nat)
    requires Enabled(s, a) && !OfFork(a) && m < |s.pcs| && (s.pcs[m].Forking? || s.pcs[m].Forked?)
    ensures Apply(s, a).pcs[m] == s.pcs[m]
  {
    assert ReapOk(s.sts, s.pars, s.pcs, a.p);
  }

  lemma MakerStep(s: Consistent, a: Action, q: nat)
    requires Enabled(s, a) && MakerOk(s.init, s.pars, s.makers, q)
    ensures MakerOk(Apply(s, a).init, Apply(s, a).pars, Apply(s, a).makers, q)
  {
    assert ForkOk(s.sts, s.pars, s.makers, s.pcs, a.p) && ParentOk(s.init, s.sts, s.pars, s.pcs, q);
  }

  lemma AccountedStep(s: Consistent, a: Action)
    requires Enabled(s, a) && Accounted(s)
    ensures Accounted(Apply(s, a))
  {
    var t := Apply(s, a);
    forall p: nat ensures KidsOk(t.pars, t.pcs, p) { KidsStep(s, a, p); }
    forall c: nat ensures UsedOk(t.sts, t.makers, t.pcs, c) { UsedStep(s, a, c); }
    forall q: nat ensures MakerOk(t.init, t.pars, t.makers, q) { MakerStep(s, a, q); }
  }

  // ---------------------------------------------------------------- whole runs

  /** userinit: only the first process exists. */
  ghost predicate Initial(s: State) {
    && Sized(s) && s.wl == None && s.exited == map[] && s.reaped == map[] && s.pcs[s.init] == Normal
    && s.pids[s.init] < s.nextpid
    && forall q: nat :: q < |s.sts| && q != s.init ==> s.sts[q] == Unused && s.pcs[q] == Absent && s.pars[q] == None
  }

  ghost predicate StepAt(states: seq<State>, acts: seq<Action>, i: nat) {
    i < |acts| && i + 1 < |states| ==>
      Enabled(states[i], acts[i]) && states[i + 1] == Apply(states[i], acts[i])
  }

  ghost predicate IsRun(states: seq<State>, acts: seq<Action>) {
    && |states| == |acts| + 1 && Initial(states[0])
    && forall i: nat :: StepAt(states, acts, i)
  }

  lemma InitialInv(s: State)
    requires Initial(s)
    ensures Inv(s) && Accounted(s)
  {
  }

  lemma RunAt(states: seq<State>, acts: seq<Action>, n: nat)
    requires IsRun(states, acts) && n < |acts|
    ensures Enabled(states[n], acts[n]) && states[n + 1] == Apply(states[n], acts[n])
  {
    assert StepAt(states, acts, n);
  }

  lemma {:induction false} RunInv(states: seq<State>, acts: seq<Action>, n: nat)
    requires IsRun(states, acts) && n <= |acts|
    ensures Inv(states[n]) && Accounted(states[n])
  {
    if n == 0 {
      InitialInv(states[0]);
    } else {
      RunInv(states, acts, n - 1);
      RunAt(states, acts, n - 1);
      Step(states[n - 1], acts[n - 1]);
      AccountedStep(states[n - 1], acts[n - 1]);
    }
  }

  /** The statuses passed to kexit in the first n steps, by pid. */
  ghost function Exits(states: seq<State>, acts: seq<Action>, n: nat): map<nat, int>
    requires n <= |acts| < |states|
  {
    if n == 0 then map[]
    else if acts[n - 1].SetZombie? && acts[n - 1].p < |states[n - 1].pids|
      then Exits(states, acts, n - 1)[states[n - 1].pids[acts[n - 1].p] := acts[n - 1].status]
    else Exits(states, acts, n - 1)
  }

  lemma {:induction false} ExitsRecorded(states: seq<State>, acts: seq<Action>, n: nat)
    requires IsRun(states, acts) && n <= |acts|
    ensures states[n].exited == Exits(states, acts, n)
  {
    if n > 0 {
      ExitsRecorded(states, acts, n - 1);
      RunAt(states, acts, n - 1);
    }
  }

  /** A process exits once: its status is on record from then on. */
  lemma {:induction false} ExitStays(states: seq<State>, acts: seq<Action>, m: nat, n: nat, p: nat, status: int)
    requires IsRun(states, acts) && m < n <= |acts| && acts[m] == SetZombie(p, status)
    ensures p < |states[m].pids| && states[m].pids[p] in Exits(states, acts, n)
    ensures Exits(states, acts, n)[states[m].pids[p]] == status
  {
    RunAt(states, acts, m);
    if m + 1 < n {
      ExitStays(states, acts, m, n - 1, p, status);
      if acts[n - 1].SetZombie? {
        ExitsRecorded(states, acts, n - 1);
        ExitsOnce(states, acts, n - 1);
      }
    }
  }

  lemma ExitsOnce(states: seq<State>, acts: seq<Action>, n: nat)
    requires IsRun(states, acts) && n < |acts| && acts[n].SetZombie?
    ensures acts[n].p < |states[n].pids| && states[n].pids[acts[n].p] !in states[n].exited
  {
    RunInv(states, acts, n);
    RunAt(states, acts, n);
    var s, q := states[n], acts[n].p;
    assert StateOk(s.sts, s.pcs, q) && PidOk(s.sts, s.pids, s.nextpid, s.exited, s.reaped, q, q);
  }

  /** Every process other than init, be it running or a zombie, has a parent that is alive. */
  lemma NobodyIsOrphaned(states: seq<State>, acts: seq<Action>, n: nat, q: nat)
    requires IsRun(states, acts) && n <= |acts| && q < |states[n].sts| && q != states[n].init
    requires states[n].sts[q] == Live || states[n].sts[q].Zombie?
    ensures Sized(states[n]) && states[n].pars[q].Some?
    ensures var p := states[n].pars[q].value; p < |states[n].sts| && p != q && states[n].sts[p] == Live
  {
    RunInv(states, acts, n);
    assert ParentOk(states[n].init, states[n].sts, states[n].pars, states[n].pcs, q);
  }

  /** No exit is missed: while wait_lock is free, nobody sleeps in kwait with a zombie child. */
  lemma NoMissedExit(states: seq<State>, acts: seq<Action>, n: nat, p: nat, q: nat)
    requires IsRun(states, acts) && n <= |acts| && states[n].wl == None && p < |states[n].pcs|
    requires states[n].pcs[p] == WSleep
    ensures !ZombieChild(states[n].sts, states[n].pars, p, q)
  {
    RunInv(states, acts, n);
    var s := states[n];
    assert SleepOk(s.init, s.sts, s.pars, s.pcs, s.wl, p, q);
  }

  /** kwait returns each exit once, with the status passed to kexit, and frees the process only
      when it has switched away for good. */
  lemma ReapIsRight(states: seq<State>, acts: seq<Action>, n: nat, p: nat)
    requires IsRun(states, acts) && n < |acts| && acts[n] == Reap(p)
    ensures Enabled(states[n], Reap(p))
    ensures var s, q := states[n], states[n].pcs[p].i;
      && q < |s.sts| && s.sts[q].Zombie? && s.pars[q] == Some(p) && s.pcs[q] == Dead
      && s.pids[q] in Exits(states, acts, n) && s.pids[q] !in s.reaped
      && states[n + 1].reaped == s.reaped[s.pids[q] := Exits(states, acts, n)[s.pids[q]]]
  {
    ExitsRecorded(states, acts, n);
    RunInv(states, acts, n);
    RunAt(states, acts, n);
    var s, q := states[n], states[n].pcs[p].i;
    assert ReapOk(s.sts, s.pars, s.pcs, p) && PidOk(s.sts, s.pids, s.nextpid, s.exited, s.reaped, q, q);
  }

  /** The status that a process passes to kexit is the one that wait returns for its pid. */
  lemma StatusArrives(states: seq<State>, acts: seq<Action>, m: nat, n: nat, p: nat, status: int, w: nat)
    requires IsRun(states, acts) && m < n < |acts| && acts[m] == SetZombie(p, status) && acts[n] == Reap(w)
    requires p < |states[m].pids| && w < |states[n].pcs| && states[n].pcs[w].WReap?
    requires states[n].pcs[w].i < |states[n].pids| && states[n].pids[states[n].pcs[w].i] == states[m].pids[p]
    ensures states[n + 1].reaped == states[n].reaped[states[m].pids[p] := status]
  {
    ReapIsRight(states, acts, n, w);
    ExitStays(states, acts, m, n, p, status);
  }

  /** Whoever has exited is either still a zombie or has been reaped, and not both. */
  lemma ExitsAreConserved(states: seq<State>, acts: seq<Action>, n: nat, pid: nat)
    requires IsRun(states, acts) && n <= |acts|
    ensures pid in Exits(states, acts, n) <==>
      pid in states[n].reaped || exists q: nat :: IsZombie(states[n].sts, states[n].pids, q, pid)
    ensures pid in states[n].reaped ==>
      Exits(states, acts, n)[pid] == states[n].reaped[pid]
      && forall q: nat :: !IsZombie(states[n].sts, states[n].pids, q, pid)
  {
    ExitsRecorded(states, acts, n);
    RunInv(states, acts, n);
    var s := states[n];
    assert HistoryOk(s.sts, s.pids, s.nextpid, s.exited, s.reaped, pid);
    forall q: nat | IsZombie(s.sts, s.pids, q, pid) ensures pid in s.exited && pid !in s.reaped {
      assert PidOk(s.sts, s.pids, s.nextpid, s.exited, s.reaped, q, q);
    }
  }

  /** kwait reports that there are no children only if there are none. */
  lemma NoChildIsRight(states: seq<State>, acts: seq<Action>, n: nat, p: nat, q: nat)
    requires IsRun(states, acts) && n < |acts| && acts[n] == NoChild(p) && q < |states[n].pars|
    ensures states[n].pars[q] != Some(p)
  {
    RunInv(states, acts, n);
    RunAt(states, acts, n);
    var s := states[n];
    assert ScanOk(s.sts, s.pars, s.pcs, p, q);
  }

  /** At the end of its loop kwait can return -1 exactly if there is no child, and can go to sleep
      exactly if there is one; and then none is a zombie. */
  lemma WaitIsRight(states: seq<State>, acts: seq<Action>, n: nat, p: nat)
    requires IsRun(states, acts) && n <= |acts| && p < |states[n].pcs|
    requires states[n].pcs[p].WScan? && states[n].pcs[p].i >= |states[n].sts|
    ensures Enabled(states[n], NoChild(p)) <==> !exists q: nat :: q < |states[n].pars| && states[n].pars[q] == Some(p)
    ensures Enabled(states[n], Sleep(p)) <==> exists q: nat :: q < |states[n].pars| && states[n].pars[q] == Some(p)
    ensures forall q: nat :: !ZombieChild(states[n].sts, states[n].pars, p, q)
  {
    RunInv(states, acts, n);
    var s := states[n];
    assert KidsOk(s.pars, s.pcs, p);
    forall q: nat
      ensures !ZombieChild(s.sts, s.pars, p, q) && (q < |s.pars| && s.pars[q] == Some(p) ==> s.pcs[p].kids)
    {
      assert ScanOk(s.sts, s.pars, s.pcs, p, q);
    }
  }

  /** kfork makes a process that runs, with a pid that nobody has or had, and the caller as its
      parent. */
  lemma ForkIsRight(states: seq<State>, acts: seq<Action>, n: nat, p: nat)
    requires IsRun(states, acts) && n < |acts| && acts[n] == Start(p)
    ensures Enabled(states[n], Start(p)) && Sized(states[n + 1]) && |states[n + 1].sts| == |states[n].sts|
    ensures var s, t, c := states[n], states[n + 1], states[n].pcs[p].c;
      && s.sts[c] == Used && t.sts[c] == Live && t.pcs[c] == Normal && t.pcs[p] == Normal && t.pars[c] == Some(p)
      && t.pids[c] !in Exits(states, acts, n)
      && forall q: nat :: q < |s.sts| && s.sts[q] != Unused && s.pids[q] == t.pids[c] ==> q == c
  {
    RunInv(states, acts, n);
    RunAt(states, acts, n);
    ExitsRecorded(states, acts, n);
    var s, c := states[n], states[n].pcs[p].c;
    assert ForkOk(s.sts, s.pars, s.makers, s.pcs, p);
    forall q: nat | q < |s.sts| && s.sts[q] != Unused && s.pids[q] == s.pids[c] ensures q == c {
      assert PidOk(s.sts, s.pids, s.nextpid, s.exited, s.reaped, c, q);
    }
    assert PidOk(s.sts, s.pids, s.nextpid, s.exited, s.reaped, c, c);
  }

  /** No entry of the process table is lost: one that is neither free nor a process is being made
      by somebody in kfork. */
  lemma EntriesAreConserved(states: seq<State>, acts: seq<Action>, n: nat, c: nat)
    requires IsRun(states, acts) && n <= |acts| && c < |states[n].sts|
    ensures states[n].sts[c] == Used <==> exists p: nat ::
      p < |states[n].pcs| && (states[n].pcs[p] == Forking(c) || states[n].pcs[p] == Forked(c))
  {
    RunInv(states, acts, n);
    var s := states[n];
    assert UsedOk(s.sts, s.makers, s.pcs, c);
    forall p: nat | p < |s.pcs| && (s.pcs[p] == Forking(c) || s.pcs[p] == Forked(c)) ensures s.sts[c] == Used {
      assert ForkOk(s.sts, s.pars, s.makers, s.pcs, p);
    }
  }

  /** A process's parent is the one that forked it, until init takes it over. */
  lemma ParentIsMakerOrInit(states: seq<State>, acts: seq<Action>, n: nat, q: nat)
    requires IsRun(states, acts) && n <= |acts| && q < |states[n].pars| && q < |states[n].makers|
    requires states[n].pars[q].Some?
    ensures states[n].pars[q] == Some(states[n].makers[q]) || states[n].pars[q] == Some(states[n].init)
  {
    RunInv(states, acts, n);
    assert MakerOk(states[n].init, states[n].pars, states[n].makers, q);
  }

  /** What a process does next; in the main part of the kernel it may call wait. */
  function NextOf(s: State, p: nat): Action
    requires p < |s.pcs|
  {
    match s.pcs[p]
    case Forking(_) => SetParent(p)
    case Forked(_) => Start(p)
    case ExScan(_) => Reparent(p)
    case ExWake(_) => WakeInit(p)
    case ExTell => WakeParent(p)
    case ExSet => SetZombie(p, 0)
    case ExRel => ExitUnlock(p)
    case Dying => SwitchOff(p)
    case WScan(i, kids) => if i < |s.sts| then Scan(p) else if kids then Sleep(p) else NoChild(p)
    case WReap(_) => Reap(p)
    case _ => WaitLock(p)
  }

  /** No deadlock: unless it sleeps in kwait or is dead, a process can take its next step, once
      wait_lock is free if it needs it; or it is in kwait at a child that can switch away. */
  lemma NobodyIsStuck(states: seq<State>, acts: seq<Action>, n: nat, p: nat)
    requires IsRun(states, acts) && n <= |acts| && p < |states[n].pcs|
    requires !states[n].pcs[p].WSleep? && !states[n].pcs[p].Dead? && !states[n].pcs[p].Absent?
    requires states[n].pcs[p].Normal? || states[n].pcs[p].Forking? || states[n].pcs[p].WReacq? ==>
      states[n].wl == None
    ensures Enabled(states[n], NextOf(states[n], p))
      || (states[n].pcs[p].WScan? && states[n].pcs[p].i < |states[n].pcs|
          && Enabled(states[n], SwitchOff(states[n].pcs[p].i)))
  {
    RunInv(states, acts, n);
    var s := states[n];
    assert StateOk(s.sts, s.pcs, p) && ParentOk(s.init, s.sts, s.pars, s.pcs, p);
    assert ForkOk(s.sts, s.pars, s.makers, s.pcs, p) && ReapOk(s.sts, s.pars, s.pcs, p);
    if s.pcs[p].WScan? && s.pcs[p].i < |s.sts| {
      assert WlHolderOk(s.pcs, s.wl, p) && WlHolderOk(s.pcs, s.wl, s.pcs[p].i);
    }
  }

  /** What wakes a process up that sleeps in kwait: the exit of a child, reparent if it is init, and
      kkill; and nothing else. */
  lemma SleepersWake(states: seq<State>, acts: seq<Action>, n: nat, p: nat)
    requires IsRun(states, acts) && n < |acts| && p < |states[n].pcs| && states[n].pcs[p] == WSleep
    ensures Enabled(states[n], acts[n]) && p < |states[n + 1].pcs|
    ensures var a := acts[n];
      var woken := a == Kill(p) || (a.WakeInit? && p == states[n].init)
        || (a.WakeParent? && states[n].pars[a.p] == Some(p));
      states[n + 1].pcs[p] == if woken then WReacq else WSleep
  {
    RunInv(states, acts, n);
    RunAt(states, acts, n);
    var s := states[n];
    assert ForkOk(s.sts, s.pars, s.makers, s.pcs, acts[n].p) && ReapOk(s.sts, s.pars, s.pcs, acts[n].p);
    assert StateOk(s.sts, s.pcs, p);
  }
}
