/** sleep, wakeup, sched, scheduler, yield and kkill of kernel/proc.c: any number of processes
  on any number of CPUs, with any number of spin locks that guard shared memory.

  A step is one access to shared memory under a spin lock, or the taking or releasing of a spin
  lock.  What a process does while it holds a spin lock is up to it: it may look at the memory
  that the lock guards, overwrite it, call wakeup on any channel, and sleep on any channel until
  a condition of its choice holds.  There are two rules, which sleep's callers follow: a process
  sleeps only if what it has looked at does not satisfy its condition, and when an update makes
  the condition of somebody who waits true, the updater calls wakeup on their channel before it
  gives the spin lock up.  Where it holds no spin lock a process may be preempted, and it may
  make an arbitrary process runnable.  The handler of an interrupt is part of what the process
  does that was interrupted; on a CPU that is in its scheduler it is a process of its own, which
  is given the CPU, does its work and yields. */
module SleepWakeup {
  import opened Basics

  /** The memory that a spin lock guards, by address. */
  type Mem = map<nat, int>

  /** What a process knows about a spin lock that it holds: which it is, what it has found in the
      memory, and the channels on which it still has to call wakeup. */
  datatype Held = Held(m: nat, seen: Option<Mem>, owes: set<nat>)

  /** What a sleeper waits for: the condition, the spin lock that guards it, and the channel. */
  datatype Want = Want(m: nat, ch: nat, cond: iset<Mem>)

  /** back is the spin lock that a process in sleep has to take again. */
  datatype Pc =
    | Idle(back: Option<nat>)
    // yield
    | YSet(back: Option<nat>) | YSwtch(back: Option<nat>) | YOff(back: Option<nat>) | YRel(back: Option<nat>)
    // kkill, or a wakeup without the spin lock
    | KTest(back: Option<nat>, q: nat) | KRel(back: Option<nat>, q: nat)
    // between acquire and release, and in a wakeup there
    | Hold(h: Held) | WNext(h: Held, ch: nat, i: nat) | WTest(h: Held, ch: nat, i: nat)
    | WDone(h: Held, ch: nat, i: nat)
    // sleep
    | SAcq(w: Want) | SRelLk(w: Want) | SSet(w: Want) | SSwtch(w: Want) | SOff(w: Want) | STidy(m: nat) | SRelP(m: nat)

  datatype Status = Sleeping | Runnable | Running
  datatype Chan = NoChan | OnChan(ch: nat)
  datatype Sched = Sched(st: Status, chan: Chan)

  /** Who holds a process's spin lock: the kernel thread of a process, or a CPU's scheduler. */
  datatype Holder = Free | Thread(r: nat) | Cpu(c: nat)

  /** A CPU's scheduler looks for work, examines process p, runs it, or has got back from it. */
  datatype CpuState = Scan | Look(p: nat) | Run(p: nat) | Back(p: nat)

  /** locks are the processes' own spin locks, lks the others, mems what these guard; ons[p] is
      the CPU of a process that is running. */
  datatype State = State(pcs: seq<Pc>, sts: seq<Sched>, locks: seq<Holder>, ons: seq<nat>, cpus: seq<CpuState>,
                         lks: seq<Option<nat>>, mems: seq<Mem>)

  // ---------------------------------------------------------------- what a program point means

  /** The process whose spin lock process r holds. */
  ghost function Target(pc: Pc, r: nat): Option<nat> {
    match pc
    case YSet(_) => Some(r)
    case YSwtch(_) => Some(r)
    case YRel(_) => Some(r)
    case SRelLk(_) => Some(r)
    case SSet(_) => Some(r)
    case SSwtch(_) => Some(r)
    case STidy(_) => Some(r)
    case SRelP(_) => Some(r)
    case KTest(_, q) => Some(q)
    case KRel(_, q) => Some(q)
    case WTest(_, _, i) => Some(i)
    case WDone(_, _, i) => Some(i)
    case _ => None
  }

  /** The other spin lock that it holds. */
  ghost function LkOf(pc: Pc): Option<nat> {
    match pc
    case Hold(h) => Some(h.m)
    case WNext(h, _, _) => Some(h.m)
    case WTest(h, _, _) => Some(h.m)
    case WDone(h, _, _) => Some(h.m)
    case SAcq(w) => Some(w.m)
    case SRelLk(w) => Some(w.m)
    case _ => None
  }

  ghost function SeenOf(pc: Pc): Option<Mem> {
    if pc.Hold? || pc.WNext? || pc.WTest? || pc.WDone? then pc.h.seen else None
  }

  /** Switched away from. */
  predicate Off(pc: Pc) {
    pc.SOff? || pc.YOff?
  }

  ghost predicate StatusFits(pc: Pc, x: Sched) {
    match pc
    case SSwtch(w) => x == Sched(Sleeping, OnChan(w.ch))
    case SOff(w) => x.st == Runnable || x == Sched(Sleeping, OnChan(w.ch))
    case YSwtch(_) => x.st == Runnable
    case YOff(_) => x.st == Runnable
    case _ => x.st == Running
  }

  /** Asleep, or bound to be. */
  predicate Waits(pc: Pc, x: Sched) {
    pc.SAcq? || pc.SRelLk? || pc.SSet? || pc.SSwtch? || (pc.SOff? && x.st == Sleeping)
  }

  /** The process at pc has still to examine process q in a wakeup on channel ch. */
  predicate Owing(pc: Pc, ch: nat, q: nat) {
    match pc
    case Hold(h) => ch in h.owes
    case WNext(h, c, i) => ch in h.owes && (c != ch || i <= q)
    case WTest(h, c, i) => ch in h.owes && (c != ch || i <= q)
    case WDone(h, c, i) => ch in h.owes && (c != ch || i < q)
    case _ => false
  }

  // ---------------------------------------------------------------- invariant

  /** The spin lock of process p, and the program points that hold it. */
  ghost predicate LockOk(pcs: seq<Pc>, locks: seq<Holder>, cpus: seq<CpuState>, p: nat) {
    p < |pcs| && p < |locks| ==>
      match locks[p]
      case Free => true
      case Thread(r) => r < |pcs| && Target(pcs[r], r) == Some(p)
      case Cpu(c) => c < |cpus| && (cpus[c] == Look(p) || cpus[c] == Back(p))
  }

  ghost predicate HolderOk(pcs: seq<Pc>, locks: seq<Holder>, r: nat) {
    r < |pcs| && Target(pcs[r], r).Some? ==>
      var t := Target(pcs[r], r).value; t < |pcs| && t < |locks| && locks[t] == Thread(r)
  }

  predicate CpuHolderOk(locks: seq<Holder>, cpus: seq<CpuState>, c: nat) {
    c < |cpus| && (cpus[c].Look? || cpus[c].Back?) ==> cpus[c].p < |locks| && locks[cpus[c].p] == Cpu(c)
  }

  ghost predicate LocksOk(pcs: seq<Pc>, locks: seq<Holder>, cpus: seq<CpuState>) {
    && |locks| == |pcs| && (forall p: nat :: LockOk(pcs, locks, cpus, p))
    && (forall r: nat :: HolderOk(pcs, locks, r)) && (forall c: nat :: CpuHolderOk(locks, cpus, c))
  }

  ghost predicate LkHolderOk(pcs: seq<Pc>, lks: seq<Option<nat>>, r: nat) {
    r < |pcs| && LkOf(pcs[r]).Some? ==> LkOf(pcs[r]).value < |lks| && lks[LkOf(pcs[r]).value] == Some(r)
  }

  ghost predicate LkOk(pcs: seq<Pc>, lks: seq<Option<nat>>, m: nat) {
    m < |lks| && lks[m].Some? ==> lks[m].value < |pcs| && LkOf(pcs[lks[m].value]) == Some(m)
  }

  ghost predicate LksOk(pcs: seq<Pc>, lks: seq<Option<nat>>) {
    (forall r: nat :: LkHolderOk(pcs, lks, r)) && (forall m: nat :: LkOk(pcs, lks, m))
  }

  predicate OnOk(pcs: seq<Pc>, ons: seq<nat>, cpus: seq<CpuState>, p: nat) {
    p < |pcs| && p < |ons| && !Off(pcs[p]) ==> ons[p] < |cpus| && cpus[ons[p]] == Run(p)
  }

  predicate RunOk(pcs: seq<Pc>, ons: seq<nat>, cpus: seq<CpuState>, c: nat) {
    c < |cpus| && cpus[c].Run? ==> var p := cpus[c].p; p < |pcs| && p < |ons| && ons[p] == c && !Off(pcs[p])
  }

  ghost predicate CpusOk(pcs: seq<Pc>, ons: seq<nat>, cpus: seq<CpuState>) {
    |ons| == |pcs| && (forall p: nat :: OnOk(pcs, ons, cpus, p)) && (forall c: nat :: RunOk(pcs, ons, cpus, c))
  }

  ghost predicate StatusAt(pcs: seq<Pc>, sts: seq<Sched>, p: nat) {
    p < |pcs| && p < |sts| ==> StatusFits(pcs[p], sts[p])
  }

  ghost predicate StatusOk(pcs: seq<Pc>, sts: seq<Sched>) {
    |sts| == |pcs| && forall p: nat :: StatusAt(pcs, sts, p)
  }

  /** What the holder of a spin lock has seen is what is there. */
  ghost predicate SeenAt(pcs: seq<Pc>, mems: seq<Mem>, r: nat) {
    r < |pcs| && SeenOf(pcs[r]).Some? ==>
      LkOf(pcs[r]).Some? && LkOf(pcs[r]).value < |mems| && mems[LkOf(pcs[r]).value] == SeenOf(pcs[r]).value
  }

  ghost predicate SeenOk(pcs: seq<Pc>, mems: seq<Mem>) {
    forall r: nat :: SeenAt(pcs, mems, r)
  }

  /** The holder of spin lock m is going to look at process q in a wakeup on channel ch. */
  ghost predicate Pending(pcs: seq<Pc>, lks: seq<Option<nat>>, m: nat, ch: nat, q: nat) {
    m < |lks| && lks[m].Some? && lks[m].value < |pcs| && Owing(pcs[lks[m].value], ch, q)
  }

  /** Whoever waits does so for a reason, or is about to be woken up. */
  ghost predicate WaiterOk(pcs: seq<Pc>, sts: seq<Sched>, lks: seq<Option<nat>>, mems: seq<Mem>, q: nat) {
    q < |pcs| && q < |sts| && Waits(pcs[q], sts[q]) ==>
      var w := pcs[q].w; w.m < |mems| && (mems[w.m] !in w.cond || Pending(pcs, lks, w.m, w.ch, q))
  }

  ghost predicate WaitersOk(pcs: seq<Pc>, sts: seq<Sched>, lks: seq<Option<nat>>, mems: seq<Mem>) {
    forall q: nat :: WaiterOk(pcs, sts, lks, mems, q)
  }

  ghost predicate Inv(s: State) {
    && |s.mems| == |s.lks|
    && LocksOk(s.pcs, s.locks, s.cpus) && LksOk(s.pcs, s.lks) && SeenOk(s.pcs, s.mems)
    && CpusOk(s.pcs, s.ons, s.cpus) && StatusOk(s.pcs, s.sts) && WaitersOk(s.pcs, s.sts, s.lks, s.mems)
  }

  type Consistent = s: State | Inv(s) ghost witness State([], [], [], [], [], [], [])

  // ---------------------------------------------------------------- kinds of change

  /** A change of the program point of p (to pc) and perhaps of the holder of t's lock (to h). */
  lemma LocksSame(pcs: seq<Pc>, locks: seq<Holder>, cpus: seq<CpuState>, p: nat, pc: Pc)
    requires LocksOk(pcs, locks, cpus) && p < |pcs| && Target(pc, p) == Target(pcs[p], p)
    ensures LocksOk(pcs[p := pc], locks, cpus)
  {
    var n := pcs[p := pc];
    forall q: nat ensures LockOk(n, locks, cpus, q) && HolderOk(n, locks, q) {
      assert LockOk(pcs, locks, cpus, q) && HolderOk(pcs, locks, q);
    }
  }

  lemma LocksTake(pcs: seq<Pc>, locks: seq<Holder>, cpus: seq<CpuState>, p: nat, pc: Pc, t: nat)
    requires LocksOk(pcs, locks, cpus) && p < |pcs| && t < |pcs| && locks[t] == Free
    requires Target(pcs[p], p) == None && Target(pc, p) == Some(t)
    ensures LocksOk(pcs[p := pc], locks[t := Thread(p)], cpus)
  {
    var n, l := pcs[p := pc], locks[t := Thread(p)];
    forall q: nat ensures LockOk(n, l, cpus, q) && HolderOk(n, l, q) && CpuHolderOk(l, cpus, q) {
      assert LockOk(pcs, locks, cpus, q) && HolderOk(pcs, locks, q) && CpuHolderOk(locks, cpus, q);
    }
  }

  lemma LocksDrop(pcs: seq<Pc>, locks: seq<Holder>, cpus: seq<CpuState>, p: nat, pc: Pc, t: nat)
    requires LocksOk(pcs, locks, cpus) && p < |pcs| && Target(pcs[p], p) == Some(t) && Target(pc, p) == None
    ensures t < |pcs| && LocksOk(pcs[p := pc], locks[t := Free], cpus)
  {
    assert HolderOk(pcs, locks, p);
    var n, l := pcs[p := pc], locks[t := Free];
    forall q: nat ensures LockOk(n, l, cpus, q) && HolderOk(n, l, q) && CpuHolderOk(l, cpus, q) {
      assert LockOk(pcs, locks, cpus, q) && HolderOk(pcs, locks, q) && CpuHolderOk(locks, cpus, q);
    }
  }

  /** swtch to the scheduler: the process's lock goes with it. */
  lemma LocksAway(pcs: seq<Pc>, locks: seq<Holder>, cpus: seq<CpuState>, p: nat, pc: Pc, c: nat)
    requires LocksOk(pcs, locks, cpus) && p < |pcs| && Target(pcs[p], p) == Some(p) && Target(pc, p) == None
    requires c < |cpus| && cpus[c] == Run(p)
    ensures LocksOk(pcs[p := pc], locks[p := Cpu(c)], cpus[c := Back(p)])
  {
    assert HolderOk(pcs, locks, p);
    var n, l, k := pcs[p := pc], locks[p := Cpu(c)], cpus[c := Back(p)];
    forall q: nat ensures LockOk(n, l, k, q) && HolderOk(n, l, q) && CpuHolderOk(l, k, q) {
      assert LockOk(pcs, locks, cpus, q) && HolderOk(pcs, locks, q) && CpuHolderOk(locks, cpus, q);
    }
  }

  /** swtch from the scheduler. */
  lemma LocksHere(pcs: seq<Pc>, locks: seq<Holder>, cpus: seq<CpuState>, p: nat, pc: Pc, c: nat)
    requires LocksOk(pcs, locks, cpus) && p < |pcs| && Target(pcs[p], p) == None && Target(pc, p) == Some(p)
    requires c < |cpus| && cpus[c] == Look(p)
    ensures LocksOk(pcs[p := pc], locks[p := Thread(p)], cpus[c := Run(p)])
  {
    assert CpuHolderOk(locks, cpus, c);
    var n, l, k := pcs[p := pc], locks[p := Thread(p)], cpus[c := Run(p)];
    forall q: nat ensures LockOk(n, l, k, q) && HolderOk(n, l, q) && CpuHolderOk(l, k, q) {
      assert LockOk(pcs, locks, cpus, q) && HolderOk(pcs, locks, q) && CpuHolderOk(locks, cpus, q);
    }
  }

  lemma LocksLook(pcs: seq<Pc>, locks: seq<Holder>, cpus: seq<CpuState>, p: nat, c: nat)
    requires LocksOk(pcs, locks, cpus) && p < |pcs| && locks[p] == Free && c < |cpus| && cpus[c] == Scan
    ensures LocksOk(pcs, locks[p := Cpu(c)], cpus[c := Look(p)])
  {
    var l, k := locks[p := Cpu(c)], cpus[c := Look(p)];
    forall q: nat ensures LockOk(pcs, l, k, q) && HolderOk(pcs, l, q) && CpuHolderOk(l, k, q) {
      assert LockOk(pcs, locks, cpus, q) && HolderOk(pcs, locks, q) && CpuHolderOk(locks, cpus, q);
    }
  }

  lemma LocksDone(pcs: seq<Pc>, locks: seq<Holder>, cpus: seq<CpuState>, p: nat, c: nat)
    requires LocksOk(pcs, locks, cpus) && c < |cpus| && (cpus[c] == Look(p) || cpus[c] == Back(p))
    ensures p < |pcs| && LocksOk(pcs, locks[p := Free], cpus[c := Scan])
  {
    assert CpuHolderOk(locks, cpus, c);
    var l, k := locks[p := Free], cpus[c := Scan];
    forall q: nat ensures LockOk(pcs, l, k, q) && HolderOk(pcs, l, q) && CpuHolderOk(l, k, q) {
      assert LockOk(pcs, locks, cpus, q) && HolderOk(pcs, locks, q) && CpuHolderOk(locks, cpus, q);
    }
  }

  lemma LksSame(pcs: seq<Pc>, lks: seq<Option<nat>>, p: nat, pc: Pc)
    requires LksOk(pcs, lks) && p < |pcs| && LkOf(pc) == LkOf(pcs[p])
    ensures LksOk(pcs[p := pc], lks)
  {
    var n := pcs[p := pc];
    forall r: nat ensures LkHolderOk(n, lks, r) && LkOk(n, lks, r) {
      assert LkHolderOk(pcs, lks, r) && LkOk(pcs, lks, r);
    }
  }

  lemma LksTake(pcs: seq<Pc>, lks: seq<Option<nat>>, p: nat, pc: Pc, m: nat)
    requires LksOk(pcs, lks) && p < |pcs| && m < |lks| && lks[m] == None && LkOf(pcs[p]) == None && LkOf(pc) == Some(m)
    ensures LksOk(pcs[p := pc], lks[m := Some(p)])
  {
    var n, k := pcs[p := pc], lks[m := Some(p)];
    forall r: nat ensures LkHolderOk(n, k, r) && LkOk(n, k, r) { assert LkHolderOk(pcs, lks, r) && LkOk(pcs, lks, r); }
  }

  lemma LksDrop(pcs: seq<Pc>, lks: seq<Option<nat>>, p: nat, pc: Pc, m: nat)
    requires LksOk(pcs, lks) && p < |pcs| && LkOf(pcs[p]) == Some(m) && LkOf(pc) == None
    ensures m < |lks| && lks[m] == Some(p) && LksOk(pcs[p := pc], lks[m := None])
  {
    assert LkHolderOk(pcs, lks, p);
    var n, k := pcs[p := pc], lks[m := None];
    forall r: nat ensures LkHolderOk(n, k, r) && LkOk(n, k, r) { assert LkHolderOk(pcs, lks, r) && LkOk(pcs, lks, r); }
  }

  lemma SeenSame(pcs: seq<Pc>, mems: seq<Mem>, p: nat, pc: Pc)
    requires SeenOk(pcs, mems) && p < |pcs|
    requires (SeenOf(pc) == None || (SeenOf(pc) == SeenOf(pcs[p]) && LkOf(pc) == LkOf(pcs[p])))
    ensures SeenOk(pcs[p := pc], mems)
  {
    var n := pcs[p := pc];
    forall r: nat ensures SeenAt(n, mems, r) { assert SeenAt(pcs, mems, r); }
  }

  lemma CpusSame(pcs: seq<Pc>, ons: seq<nat>, cpus: seq<CpuState>, p: nat, pc: Pc)
    requires CpusOk(pcs, ons, cpus) && p < |pcs| && Off(pc) == Off(pcs[p])
    ensures CpusOk(pcs[p := pc], ons, cpus)
  {
    var n := pcs[p := pc];
    forall q: nat ensures OnOk(n, ons, cpus, q) && RunOk(n, ons, cpus, q) {
      assert OnOk(pcs, ons, cpus, q) && RunOk(pcs, ons, cpus, q);
    }
  }

  lemma CpusQuiet(pcs: seq<Pc>, ons: seq<nat>, cpus: seq<CpuState>, c: nat, d: CpuState)
    requires CpusOk(pcs, ons, cpus) && c < |cpus| && !cpus[c].Run? && !d.Run?
    ensures CpusOk(pcs, ons, cpus[c := d])
  {
    var k := cpus[c := d];
    forall q: nat ensures OnOk(pcs, ons, k, q) && RunOk(pcs, ons, k, q) {
      assert OnOk(pcs, ons, cpus, q) && RunOk(pcs, ons, cpus, q);
    }
  }

  lemma CpusAway(pcs: seq<Pc>, ons: seq<nat>, cpus: seq<CpuState>, p: nat, pc: Pc, c: nat)
    requires CpusOk(pcs, ons, cpus) && p < |pcs| && c < |cpus| && cpus[c] == Run(p) && Off(pc)
    ensures CpusOk(pcs[p := pc], ons, cpus[c := Back(p)])
  {
    assert RunOk(pcs, ons, cpus, c);
    var n, k := pcs[p := pc], cpus[c := Back(p)];
    forall q: nat ensures OnOk(n, ons, k, q) && RunOk(n, ons, k, q) {
      assert OnOk(pcs, ons, cpus, q) && RunOk(pcs, ons, cpus, q);
    }
  }

  lemma CpusHere(pcs: seq<Pc>, ons: seq<nat>, cpus: seq<CpuState>, p: nat, pc: Pc, c: nat)
    requires CpusOk(pcs, ons, cpus) && p < |pcs| && c < |cpus| && cpus[c] == Look(p) && Off(pcs[p]) && !Off(pc)
    ensures CpusOk(pcs[p := pc], ons[p := c], cpus[c := Run(p)])
  {
    var n, o, k := pcs[p := pc], ons[p := c], cpus[c := Run(p)];
    forall q: nat ensures OnOk(n, o, k, q) && RunOk(n, o, k, q) {
      assert OnOk(pcs, ons, cpus, q) && RunOk(pcs, ons, cpus, q);
    }
  }

  lemma StatusSet(pcs: seq<Pc>, sts: seq<Sched>, p: nat, pc: Pc, x: Sched)
    requires StatusOk(pcs, sts) && p < |pcs| && StatusFits(pc, x)
    ensures StatusOk(pcs[p := pc], sts[p := x])
  {
    var n, t := pcs[p := pc], sts[p := x];
    forall q: nat ensures StatusAt(n, t, q) { assert StatusAt(pcs, sts, q); }
  }

  /** Another process is made runnable. */
  lemma StatusOther(pcs: seq<Pc>, sts: seq<Sched>, p: nat, pc: Pc, i: nat, x: Sched)
    requires StatusOk(pcs, sts) && p < |pcs| && i < |pcs|
    requires StatusFits(pc, if i == p then x else sts[p]) && (i != p ==> StatusFits(pcs[i], x))
    ensures StatusOk(pcs[p := pc], sts[i := x])
  {
    var n, t := pcs[p := pc], sts[i := x];
    forall q: nat ensures StatusAt(n, t, q) { assert StatusAt(pcs, sts, q); }
  }

  /** A process that moves from pc to pc' owes no less than before. */
  ghost predicate OwesOn(pc: Pc, pc': Pc) {
    forall ch: nat, q: nat :: OwesAt(pc, pc', ch, q)
  }

  predicate OwesAt(pc: Pc, pc': Pc, ch: nat, q: nat) {
    Owing(pc, ch, q) ==> Owing(pc', ch, q)
  }

  /** p moves on; if it waits afterwards it has done so before, for the same reason. */
  lemma WaitersSame(s: Consistent, p: nat, pc: Pc, x: Sched)
    requires p < |s.pcs| && OwesOn(s.pcs[p], pc) && (Waits(pc, x) ==> Waits(s.pcs[p], s.sts[p]) && pc.w == s.pcs[p].w)
    ensures WaitersOk(s.pcs[p := pc], s.sts[p := x], s.lks, s.mems)
  {
    var n, t := s.pcs[p := pc], s.sts[p := x];
    forall q: nat ensures WaiterOk(n, t, s.lks, s.mems, q) {
      assert WaiterOk(s.pcs, s.sts, s.lks, s.mems, q);
      if q < |n| && Waits(n[q], t[q]) { assert OwesAt(s.pcs[p], pc, n[q].w.ch, q); }
    }
  }

  /** p takes spin lock m: there was nobody to owe a wakeup. */
  lemma WaitersTake(s: Consistent, p: nat, pc: Pc, m: nat)
    requires p < |s.pcs| && m < |s.lks| && s.lks[m] == None && LkOf(s.pcs[p]) == None && !Waits(pc, s.sts[p])
    ensures WaitersOk(s.pcs[p := pc], s.sts, s.lks[m := Some(p)], s.mems)
  {
    var n, k := s.pcs[p := pc], s.lks[m := Some(p)];
    forall q: nat ensures WaiterOk(n, s.sts, k, s.mems, q) {
      assert WaiterOk(s.pcs, s.sts, s.lks, s.mems, q);
      if q < |n| && Waits(n[q], s.sts[q]) { assert LkOk(s.pcs, s.lks, n[q].w.m); }
    }
  }

  /** p releases spin lock m and owes nothing. */
  lemma WaitersDrop(s: Consistent, p: nat, pc: Pc, m: nat)
    requires p < |s.pcs| && LkOf(s.pcs[p]) == Some(m) && forall ch: nat, q: nat :: !Owing(s.pcs[p], ch, q)
    requires Waits(pc, s.sts[p]) ==> Waits(s.pcs[p], s.sts[p]) && pc.w == s.pcs[p].w
    ensures m < |s.lks| && WaitersOk(s.pcs[p := pc], s.sts, s.lks[m := None], s.mems)
  {
    assert LkHolderOk(s.pcs, s.lks, p);
    var n, k := s.pcs[p := pc], s.lks[m := None];
    forall q: nat ensures WaiterOk(n, s.sts, k, s.mems, q) {
      assert WaiterOk(s.pcs, s.sts, s.lks, s.mems, q);
      if q < |n| && Waits(n[q], s.sts[q]) { assert LkOk(s.pcs, s.lks, n[q].w.m); }
    }
  }

  // ---------------------------------------------------------------- steps

  datatype Action =
    // acquire and release, and what happens between them
    | Take(c: nat, m: nat) | Read(c: nat) | Update(c: nat, d: Mem, more: set<nat>) | Release(c: nat)
    // wakeup
    | Wake(c: nat, ch: nat) | WakeNext(c: nat) | WakeTest(c: nat) | WakeUnlock(c: nat)
    // sleep
    | Sleep(c: nat, ch: nat, cond: iset<Mem>) | TakeOwn(c: nat) | DropLk(c: nat) | GoToSleep(c: nat) | Tidy(c: nat)
    | DropOwn(c: nat)
    // yield; kkill or a wakeup without the spin lock
    | Preempt(c: nat) | GiveUp(c: nat) | Poke(c: nat, q: nat) | PokeTest(c: nat, wakes: bool) | PokeDone(c: nat)
    // sched and scheduler
    | Swtch(c: nat) | Pick(c: nat, p: nat) | Dispatch(c: nat) | Skip(c: nat) | Return(c: nat)

  /** The program point of the process that CPU c runs. */
  function At(s: State, c: nat): Option<Pc> {
    if c < |s.cpus| && s.cpus[c].Run? && s.cpus[c].p < |s.pcs| then Some(s.pcs[s.cpus[c].p]) else None
  }

  predicate Sized(s: State) {
    |s.sts| == |s.pcs| && |s.locks| == |s.pcs| && |s.ons| == |s.pcs| && |s.mems| == |s.lks|
  }

  /** If the update of m's memory to d makes q's condition true, q's channel is among the debts. */
  ghost predicate Told(pcs: seq<Pc>, sts: seq<Sched>, mems: seq<Mem>, m: nat, d: Mem, owes: set<nat>, q: nat) {
    q < |pcs| && q < |sts| && Waits(pcs[q], sts[q]) && pcs[q].w.m == m && m < |mems| && mems[m] !in pcs[q].w.cond
    && d in pcs[q].w.cond ==>
      pcs[q].w.ch in owes
  }

  ghost predicate AllTold(s: State, h: Held, d: Mem, more: set<nat>) {
    forall q: nat :: Told(s.pcs, s.sts, s.mems, h.m, d, h.owes + more, q)
  }

  ghost predicate Enabled(s: State, a: Action) {
    Sized(s) &&
    match a
    case Take(c, m) =>
      At(s, c).Some? && At(s, c).value.Idle? && At(s, c).value.back in {None, Some(m)} && m < |s.lks|
      && s.lks[m] == None
    case Read(c) => At(s, c).Some? && At(s, c).value.Hold? && At(s, c).value.h.m < |s.mems|
    case Update(c, d, more) =>
      At(s, c).Some? && At(s, c).value.Hold? && At(s, c).value.h.m < |s.mems| && AllTold(s, At(s, c).value.h, d, more)
    case Release(c) =>
      At(s, c).Some? && At(s, c).value.Hold? && At(s, c).value.h.m < |s.lks| && At(s, c).value.h.owes == {}
    case Wake(c, _) => At(s, c).Some? && At(s, c).value.Hold?
    case WakeNext(c) =>
      && At(s, c).Some? && At(s, c).value.WNext?
      && var i := At(s, c).value.i; i >= |s.pcs| || i == s.cpus[c].p || s.locks[i] == Free
    case WakeTest(c) => At(s, c).Some? && At(s, c).value.WTest? && At(s, c).value.i < |s.pcs|
    case WakeUnlock(c) => At(s, c).Some? && At(s, c).value.WDone? && At(s, c).value.i < |s.pcs|
    case Sleep(c, _, cond) =>
      && At(s, c).Some? && At(s, c).value.Hold?
      && var h := At(s, c).value.h; h.owes == {} && h.seen.Some? && h.seen.value !in cond
    case TakeOwn(c) => At(s, c).Some? && At(s, c).value.SAcq? && s.locks[s.cpus[c].p] == Free
    case DropLk(c) => At(s, c).Some? && At(s, c).value.SRelLk? && At(s, c).value.w.m < |s.lks|
    case GoToSleep(c) => At(s, c).Some? && At(s, c).value.SSet?
    case Tidy(c) => At(s, c).Some? && At(s, c).value.STidy?
    case DropOwn(c) => At(s, c).Some? && (At(s, c).value.SRelP? || At(s, c).value.YRel?)
    case Preempt(c) => At(s, c).Some? && At(s, c).value.Idle? && s.locks[s.cpus[c].p] == Free
    case GiveUp(c) => At(s, c).Some? && At(s, c).value.YSet?
    case Poke(c, q) => At(s, c).Some? && At(s, c).value.Idle? && q < |s.pcs| && s.locks[q] == Free
    case PokeTest(c, _) => At(s, c).Some? && At(s, c).value.KTest? && At(s, c).value.q < |s.pcs|
    case PokeDone(c) => At(s, c).Some? && At(s, c).value.KRel? && At(s, c).value.q < |s.pcs|
    case Swtch(c) => At(s, c).Some? && (At(s, c).value.SSwtch? || At(s, c).value.YSwtch?)
    case Pick(c, p) => c < |s.cpus| && s.cpus[c] == Scan && p < |s.pcs| && s.locks[p] == Free
    case Dispatch(c) => c < |s.cpus| && s.cpus[c].Look? && s.cpus[c].p < |s.pcs| && s.sts[s.cpus[c].p].st == Runnable
    case Skip(c) => c < |s.cpus| && s.cpus[c].Look? && s.cpus[c].p < |s.pcs| && s.sts[s.cpus[c].p].st != Runnable
    case Return(c) => c < |s.cpus| && s.cpus[c].Back? && s.cpus[c].p < |s.pcs|
  }

  function Move(s: State, p: nat, pc: Pc): State
    requires p < |s.pcs|
  {
    s.(pcs := s.pcs[p := pc])
  }

  /** Where the scheduler's swtch continues. */
  function Resumed(pc: Pc): Pc {
    match pc
    case YOff(back) => YRel(back)
    case SOff(w) => STidy(w.m)
    case _ => pc
  }

  /** Where a swtch to the scheduler leaves a process. */
  function SwitchedOff(pc: Pc): Pc
    requires pc.SSwtch? || pc.YSwtch?
  {
    if pc.YSwtch? then YOff(pc.back) else SOff(pc.w)
  }

  /** wakeup's examination of a process. */
  function Woken(x: Sched, ch: nat): Sched {
    if x == Sched(Sleeping, OnChan(ch)) then x.(st := Runnable) else x
  }

  /** kkill makes any sleeper runnable; a wakeup on another channel those that sleep there. */
  function Poked(x: Sched, wakes: bool): Sched {
    if wakes && x.st == Sleeping then x.(st := Runnable) else x
  }

  ghost function Apply(s: State, a: Action): State
    requires Enabled(s, a)
  {
    var c := a.c;
    var p := if s.cpus[c].Scan? then 0 else s.cpus[c].p;
    match a
    case Take(_, m) => Move(s, p, Hold(Held(m, None, {}))).(lks := s.lks[m := Some(p)])
    case Read(_) => var h := s.pcs[p].h; Move(s, p, Hold(h.(seen := Some(s.mems[h.m]))))
    case Update(_, d, more) =>
      var h := s.pcs[p].h; Move(s, p, Hold(Held(h.m, Some(d), h.owes + more))).(mems := s.mems[h.m := d])
    case Release(_) => Move(s, p, Idle(None)).(lks := s.lks[s.pcs[p].h.m := None])
    case Wake(_, ch) => Move(s, p, WNext(s.pcs[p].h, ch, 0))
    case WakeNext(_) =>
      var h, ch, i := s.pcs[p].h, s.pcs[p].ch, s.pcs[p].i;
      if i >= |s.pcs| then Move(s, p, Hold(h.(owes := h.owes - {ch})))
      else if i == p then Move(s, p, WNext(h, ch, i + 1))
      else Move(s, p, WTest(h, ch, i)).(locks := s.locks[i := Thread(p)])
    case WakeTest(_) =>
      var h, ch, i := s.pcs[p].h, s.pcs[p].ch, s.pcs[p].i;
      Move(s, p, WDone(h, ch, i)).(sts := s.sts[i := Woken(s.sts[i], ch)])
    case WakeUnlock(_) =>
      var h, ch, i := s.pcs[p].h, s.pcs[p].ch, s.pcs[p].i;
      Move(s, p, WNext(h, ch, i + 1)).(locks := s.locks[i := Free])
    case Sleep(_, ch, cond) => Move(s, p, SAcq(Want(s.pcs[p].h.m, ch, cond)))
    case TakeOwn(_) => Move(s, p, SRelLk(s.pcs[p].w)).(locks := s.locks[p := Thread(p)])
    case DropLk(_) => Move(s, p, SSet(s.pcs[p].w)).(lks := s.lks[s.pcs[p].w.m := None])
    case GoToSleep(_) => var w := s.pcs[p].w; Move(s, p, SSwtch(w)).(sts := s.sts[p := Sched(Sleeping, OnChan(w.ch))])
    case Tidy(_) => Move(s, p, SRelP(s.pcs[p].m)).(sts := s.sts[p := s.sts[p].(chan := NoChan)])
    case DropOwn(_) =>
      Move(s, p, Idle(if s.pcs[p].YRel? then s.pcs[p].back else Some(s.pcs[p].m))).(locks := s.locks[p := Free])
    case Preempt(_) => Move(s, p, YSet(s.pcs[p].back)).(locks := s.locks[p := Thread(p)])
    case GiveUp(_) => Move(s, p, YSwtch(s.pcs[p].back)).(sts := s.sts[p := s.sts[p].(st := Runnable)])
    case Poke(_, q) => Move(s, p, KTest(s.pcs[p].back, q)).(locks := s.locks[q := Thread(p)])
    case PokeTest(_, wakes) =>
      var q := s.pcs[p].q; Move(s, p, KRel(s.pcs[p].back, q)).(sts := s.sts[q := Poked(s.sts[q], wakes)])
    case PokeDone(_) => var q := s.pcs[p].q; Move(s, p, Idle(s.pcs[p].back)).(locks := s.locks[q := Free])
    case Swtch(_) => Move(s, p, SwitchedOff(s.pcs[p])).(locks := s.locks[p := Cpu(c)], cpus := s.cpus[c := Back(p)])
    case Pick(_, q) => s.(locks := s.locks[q := Cpu(c)], cpus := s.cpus[c := Look(q)])
    case Dispatch(_) =>
      Move(s, p, Resumed(s.pcs[p])).(sts := s.sts[p := s.sts[p].(st := Running)], locks := s.locks[p := Thread(p)],
                                     ons := s.ons[p := c], cpus := s.cpus[c := Run(p)])
    case Skip(_) => s.(locks := s.locks[p := Free], cpus := s.cpus[c := Scan])
    case Return(_) => s.(locks := s.locks[p := Free], cpus := s.cpus[c := Scan])
  }

  // ---------------------------------------------------------------- every step keeps the invariant

  /** What the invariant says about process p. */
  lemma Facts(s: Consistent, p: nat)
    requires p < |s.pcs|
    ensures Sized(s) && StatusFits(s.pcs[p], s.sts[p])
    ensures LkOf(s.pcs[p]).Some? ==> LkOf(s.pcs[p]).value < |s.lks| && s.lks[LkOf(s.pcs[p]).value] == Some(p)
    ensures Target(s.pcs[p], p).Some? ==>
      Target(s.pcs[p], p).value < |s.pcs| && s.locks[Target(s.pcs[p], p).value] == Thread(p)
    ensures SeenOf(s.pcs[p]).Some? ==> s.mems[LkOf(s.pcs[p]).value] == SeenOf(s.pcs[p]).value
  {
    assert StatusAt(s.pcs, s.sts, p) && LkHolderOk(s.pcs, s.lks, p) && HolderOk(s.pcs, s.locks, p);
    assert SeenAt(s.pcs, s.mems, p);
  }

  /** A process moves on and keeps the condition lock it has, or has none. */
  ghost predicate Keeps(was: Pc, pc: Pc) {
    && LkOf(pc) == LkOf(was) && Off(pc) == Off(was) && OwesOn(was, pc)
    && (SeenOf(pc) == None || SeenOf(pc) == SeenOf(was))
  }

  ghost predicate WaitKept(was: Pc, x: Sched, pc: Pc, y: Sched) {
    Waits(pc, y) ==> Waits(was, x) && pc.w == was.w
  }

  /** A process that holds its own lock, or does not need it, changes its state to x. */
  lemma MoveInv(s: Consistent, p: nat, pc: Pc, x: Sched)
    requires p < |s.pcs| && Target(pc, p) == Target(s.pcs[p], p) && Keeps(s.pcs[p], pc) && StatusFits(pc, x)
    requires WaitKept(s.pcs[p], s.sts[p], pc, x)
    ensures Inv(Move(s, p, pc).(sts := s.sts[p := x]))
  {
    LocksSame(s.pcs, s.locks, s.cpus, p, pc);
    LksSame(s.pcs, s.lks, p, pc);
    SeenSame(s.pcs, s.mems, p, pc);
    CpusSame(s.pcs, s.ons, s.cpus, p, pc);
    StatusSet(s.pcs, s.sts, p, pc, x);
    WaitersSame(s, p, pc, x);
  }

  lemma SameStatus(s: State, p: nat)
    requires p < |s.sts|
    ensures s.sts[p := s.sts[p]] == s.sts
  {
  }

  /** A process takes the spin lock of process t. */
  lemma TakeInv(s: Consistent, p: nat, pc: Pc, t: nat)
    requires p < |s.pcs| && t < |s.pcs| && s.locks[t] == Free && Target(s.pcs[p], p) == None && Target(pc, p) == Some(t)
    requires Keeps(s.pcs[p], pc) && StatusFits(pc, s.sts[p]) && WaitKept(s.pcs[p], s.sts[p], pc, s.sts[p])
    ensures Inv(Move(s, p, pc).(locks := s.locks[t := Thread(p)]))
  {
    LocksTake(s.pcs, s.locks, s.cpus, p, pc, t);
    LksSame(s.pcs, s.lks, p, pc);
    SeenSame(s.pcs, s.mems, p, pc);
    CpusSame(s.pcs, s.ons, s.cpus, p, pc);
    StatusSet(s.pcs, s.sts, p, pc, s.sts[p]);
    WaitersSame(s, p, pc, s.sts[p]);
    SameStatus(s, p);
  }

  /** A process releases the spin lock of process t. */
  lemma DropInv(s: Consistent, p: nat, pc: Pc, t: nat)
    requires p < |s.pcs| && Target(s.pcs[p], p) == Some(t) && Target(pc, p) == None
    requires Keeps(s.pcs[p], pc) && StatusFits(pc, s.sts[p]) && WaitKept(s.pcs[p], s.sts[p], pc, s.sts[p])
    ensures t < |s.pcs| && Inv(Move(s, p, pc).(locks := s.locks[t := Free]))
  {
    LocksDrop(s.pcs, s.locks, s.cpus, p, pc, t);
    LksSame(s.pcs, s.lks, p, pc);
    SeenSame(s.pcs, s.mems, p, pc);
    CpusSame(s.pcs, s.ons, s.cpus, p, pc);
    StatusSet(s.pcs, s.sts, p, pc, s.sts[p]);
    WaitersSame(s, p, pc, s.sts[p]);
    SameStatus(s, p);
  }

  lemma TakeLkInv(s: Consistent, p: nat, m: nat)
    requires p < |s.pcs| && s.pcs[p].Idle? && m < |s.lks| && s.lks[m] == None
    ensures Inv(Move(s, p, Hold(Held(m, None, {}))).(lks := s.lks[m := Some(p)]))
  {
    var pc := Hold(Held(m, None, {}));
    Facts(s, p);
    LocksSame(s.pcs, s.locks, s.cpus, p, pc);
    LksTake(s.pcs, s.lks, p, pc, m);
    SeenSame(s.pcs, s.mems, p, pc);
    CpusSame(s.pcs, s.ons, s.cpus, p, pc);
    StatusSet(s.pcs, s.sts, p, pc, s.sts[p]);
    WaitersTake(s, p, pc, m);
    SameStatus(s, p);
  }

  /** A process that owes no wakeup releases its condition lock. */
  lemma DropLkInv(s: Consistent, p: nat, pc: Pc, m: nat)
    requires p < |s.pcs| && LkOf(s.pcs[p]) == Some(m) && LkOf(pc) == None && forall ch: nat, q: nat ::
      !Owing(s.pcs[p], ch, q)
    requires Target(pc, p) == Target(s.pcs[p], p) && Off(pc) == Off(s.pcs[p]) && SeenOf(pc) == None
    requires StatusFits(pc, s.sts[p])
    requires WaitKept(s.pcs[p], s.sts[p], pc, s.sts[p])
    ensures m < |s.lks| && Inv(Move(s, p, pc).(lks := s.lks[m := None]))
  {
    LocksSame(s.pcs, s.locks, s.cpus, p, pc);
    LksDrop(s.pcs, s.lks, p, pc, m);
    SeenSame(s.pcs, s.mems, p, pc);
    CpusSame(s.pcs, s.ons, s.cpus, p, pc);
    StatusSet(s.pcs, s.sts, p, pc, s.sts[p]);
    WaitersDrop(s, p, pc, m);
    SameStatus(s, p);
  }

  lemma ReadInv(s: Consistent, p: nat, h: Held)
    requires p < |s.pcs| && s.pcs[p] == Hold(h) && h.m < |s.mems|
    ensures Inv(Move(s, p, Hold(h.(seen := Some(s.mems[h.m])))))
  {
    var pc := Hold(h.(seen := Some(s.mems[h.m])));
    Facts(s, p);
    LocksSame(s.pcs, s.locks, s.cpus, p, pc);
    LksSame(s.pcs, s.lks, p, pc);
    CpusSame(s.pcs, s.ons, s.cpus, p, pc);
    StatusSet(s.pcs, s.sts, p, pc, s.sts[p]);
    WaitersSame(s, p, pc, s.sts[p]);
    SameStatus(s, p);
    var n := s.pcs[p := pc];
    forall r: nat ensures SeenAt(n, s.mems, r) { assert SeenAt(s.pcs, s.mems, r); }
  }

  lemma UpdateSeen(s: Consistent, p: nat, h: Held, d: Mem, pc: Pc)
    requires p < |s.pcs| && s.pcs[p] == Hold(h) && h.m < |s.mems| && LkOf(pc) == Some(h.m) && SeenOf(pc) == Some(d)
    ensures SeenOk(s.pcs[p := pc], s.mems[h.m := d])
  {
    var n, mems := s.pcs[p := pc], s.mems[h.m := d];
    forall r: nat ensures SeenAt(n, mems, r) {
      assert SeenAt(s.pcs, s.mems, r) && LkHolderOk(s.pcs, s.lks, r) && LkHolderOk(s.pcs, s.lks, p);
    }
  }

  lemma UpdateWaiters(s: Consistent, p: nat, h: Held, d: Mem, more: set<nat>)
    requires p < |s.pcs| && s.pcs[p] == Hold(h) && h.m < |s.mems| && AllTold(s, h, d, more)
    ensures WaitersOk(s.pcs[p := Hold(Held(h.m, Some(d), h.owes + more))], s.sts, s.lks, s.mems[h.m := d])
  {
    Facts(s, p);
    var n, mems := s.pcs[p := Hold(Held(h.m, Some(d), h.owes + more))], s.mems[h.m := d];
    forall q: nat ensures WaiterOk(n, s.sts, s.lks, mems, q) {
      assert WaiterOk(s.pcs, s.sts, s.lks, s.mems, q) && Told(s.pcs, s.sts, s.mems, h.m, d, h.owes + more, q);
    }
  }

  lemma UpdateInv(s: Consistent, p: nat, h: Held, d: Mem, more: set<nat>)
    requires p < |s.pcs| && s.pcs[p] == Hold(h) && h.m < |s.mems| && AllTold(s, h, d, more)
    ensures Inv(Move(s, p, Hold(Held(h.m, Some(d), h.owes + more))).(mems := s.mems[h.m := d]))
  {
    var pc := Hold(Held(h.m, Some(d), h.owes + more));
    Facts(s, p);
    LocksSame(s.pcs, s.locks, s.cpus, p, pc);
    LksSame(s.pcs, s.lks, p, pc);
    UpdateSeen(s, p, h, d, pc);
    CpusSame(s.pcs, s.ons, s.cpus, p, pc);
    StatusSet(s.pcs, s.sts, p, pc, s.sts[p]);
    UpdateWaiters(s, p, h, d, more);
    SameStatus(s, p);
  }

  /** The decision to sleep: the condition does not hold, and the lock keeps it so. */
  lemma SleepInv(s: Consistent, p: nat, h: Held, ch: nat, cond: iset<Mem>)
    requires p < |s.pcs| && s.pcs[p] == Hold(h) && h.owes == {} && h.seen.Some? && h.seen.value !in cond
    ensures Inv(Move(s, p, SAcq(Want(h.m, ch, cond))))
  {
    var pc := SAcq(Want(h.m, ch, cond));
    Facts(s, p);
    LocksSame(s.pcs, s.locks, s.cpus, p, pc);
    LksSame(s.pcs, s.lks, p, pc);
    SeenSame(s.pcs, s.mems, p, pc);
    CpusSame(s.pcs, s.ons, s.cpus, p, pc);
    StatusSet(s.pcs, s.sts, p, pc, s.sts[p]);
    SameStatus(s, p);
    var n := s.pcs[p := pc];
    forall q: nat ensures WaiterOk(n, s.sts, s.lks, s.mems, q) { assert WaiterOk(s.pcs, s.sts, s.lks, s.mems, q); }
  }

  /** A process whose lock somebody else holds is not about to sleep. */
  lemma LockedByOther(s: Consistent, p: nat, i: nat)
    requires p < |s.pcs| && i != p && Target(s.pcs[p], p) == Some(i)
    ensures i < |s.pcs| && !s.pcs[i].SRelLk? && !s.pcs[i].SSet? && !s.pcs[i].SSwtch? && !s.pcs[i].YSwtch?
  {
    assert HolderOk(s.pcs, s.locks, p) && HolderOk(s.pcs, s.locks, i);
  }

  /** So it can be made runnable if it sleeps. */
  lemma RunnableFits(s: Consistent, p: nat, i: nat)
    requires p < |s.pcs| && i < |s.pcs| && i != p && Target(s.pcs[p], p) == Some(i) && s.sts[i].st == Sleeping
    ensures StatusFits(s.pcs[i], s.sts[i].(st := Runnable))
  {
    LockedByOther(s, p, i);
    Facts(s, i);
  }

  /** Whoever wakeup has examined no longer waits on its channel for its condition lock. */
  lemma WokenUp(s: Consistent, p: nat, h: Held, ch: nat, i: nat)
    requires p < |s.pcs| && s.pcs[p] == WTest(h, ch, i) && i < |s.pcs| && i != p
    ensures StatusFits(s.pcs[i], Woken(s.sts[i], ch))
    ensures Waits(s.pcs[i], Woken(s.sts[i], ch)) ==> s.pcs[i].w.ch != ch || s.pcs[i].w.m != h.m
  {
    LockedByOther(s, p, i);
    Facts(s, i);
    Facts(s, p);
  }

  lemma WakeTestWaiters(s: Consistent, p: nat, h: Held, ch: nat, i: nat)
    requires p < |s.pcs| && s.pcs[p] == WTest(h, ch, i) && i < |s.pcs|
    ensures WaitersOk(s.pcs[p := WDone(h, ch, i)], s.sts[i := Woken(s.sts[i], ch)], s.lks, s.mems)
  {
    if i != p { WokenUp(s, p, h, ch, i); }
    Facts(s, p);
    var n, t := s.pcs[p := WDone(h, ch, i)], s.sts[i := Woken(s.sts[i], ch)];
    forall q: nat ensures WaiterOk(n, t, s.lks, s.mems, q) {
      assert WaiterOk(s.pcs, s.sts, s.lks, s.mems, q);
      if q < |n| && Waits(n[q], t[q]) { assert LkOk(s.pcs, s.lks, n[q].w.m); }
    }
  }

  lemma WakeTestInv(s: Consistent, p: nat, h: Held, ch: nat, i: nat)
    requires p < |s.pcs| && s.pcs[p] == WTest(h, ch, i)
    ensures i < |s.pcs| && Inv(Move(s, p, WDone(h, ch, i)).(sts := s.sts[i := Woken(s.sts[i], ch)]))
  {
    var pc := WDone(h, ch, i);
    Facts(s, p);
    if i != p { WokenUp(s, p, h, ch, i); }
    LocksSame(s.pcs, s.locks, s.cpus, p, pc);
    LksSame(s.pcs, s.lks, p, pc);
    SeenSame(s.pcs, s.mems, p, pc);
    CpusSame(s.pcs, s.ons, s.cpus, p, pc);
    StatusOther(s.pcs, s.sts, p, pc, i, Woken(s.sts[i], ch));
    WakeTestWaiters(s, p, h, ch, i);
  }

  /** At the end of wakeup its channel is no longer owed: there is no process left to examine. */
  lemma WakeEndInv(s: Consistent, p: nat, h: Held, ch: nat, i: nat)
    requires p < |s.pcs| && s.pcs[p] == WNext(h, ch, i) && i >= |s.pcs|
    ensures Inv(Move(s, p, Hold(h.(owes := h.owes - {ch}))))
  {
    var pc := Hold(h.(owes := h.owes - {ch}));
    Facts(s, p);
    LocksSame(s.pcs, s.locks, s.cpus, p, pc);
    LksSame(s.pcs, s.lks, p, pc);
    SeenSame(s.pcs, s.mems, p, pc);
    CpusSame(s.pcs, s.ons, s.cpus, p, pc);
    StatusSet(s.pcs, s.sts, p, pc, s.sts[p]);
    SameStatus(s, p);
    var n := s.pcs[p := pc];
    forall q: nat ensures WaiterOk(n, s.sts, s.lks, s.mems, q) { assert WaiterOk(s.pcs, s.sts, s.lks, s.mems, q); }
  }

  /** wakeup passes over its caller, who does not wait. */
  lemma WakeSelfInv(s: Consistent, p: nat, h: Held, ch: nat)
    requires p < |s.pcs| && s.pcs[p] == WNext(h, ch, p)
    ensures Inv(Move(s, p, WNext(h, ch, p + 1)))
  {
    var pc := WNext(h, ch, p + 1);
    Facts(s, p);
    LocksSame(s.pcs, s.locks, s.cpus, p, pc);
    LksSame(s.pcs, s.lks, p, pc);
    SeenSame(s.pcs, s.mems, p, pc);
    CpusSame(s.pcs, s.ons, s.cpus, p, pc);
    StatusSet(s.pcs, s.sts, p, pc, s.sts[p]);
    SameStatus(s, p);
    var n := s.pcs[p := pc];
    forall q: nat ensures WaiterOk(n, s.sts, s.lks, s.mems, q) { assert WaiterOk(s.pcs, s.sts, s.lks, s.mems, q); }
  }

  lemma PokeTestInv(s: Consistent, p: nat, back: Option<nat>, q: nat, wakes: bool)
    requires p < |s.pcs| && s.pcs[p] == KTest(back, q)
    ensures q < |s.pcs| && Inv(Move(s, p, KRel(back, q)).(sts := s.sts[q := Poked(s.sts[q], wakes)]))
  {
    var pc := KRel(back, q);
    Facts(s, p);
    var x := Poked(s.sts[q], wakes);
    Facts(s, q);
    if q != p && s.sts[q].st == Sleeping { RunnableFits(s, p, q); }
    LocksSame(s.pcs, s.locks, s.cpus, p, pc);
    LksSame(s.pcs, s.lks, p, pc);
    SeenSame(s.pcs, s.mems, p, pc);
    CpusSame(s.pcs, s.ons, s.cpus, p, pc);
    StatusOther(s.pcs, s.sts, p, pc, q, x);
    var t, n := s.sts[q := x], s.pcs[p := pc];
    forall r: nat ensures WaiterOk(n, t, s.lks, s.mems, r) { assert WaiterOk(s.pcs, s.sts, s.lks, s.mems, r); }
  }

  lemma SwtchInv(s: Consistent, c: nat, p: nat)
    requires c < |s.cpus| && s.cpus[c] == Run(p) && p < |s.pcs| && (s.pcs[p].SSwtch? || s.pcs[p].YSwtch?)
    ensures Inv(Move(s, p, SwitchedOff(s.pcs[p])).(locks := s.locks[p := Cpu(c)], cpus := s.cpus[c := Back(p)]))
  {
    var pc := SwitchedOff(s.pcs[p]);
    Facts(s, p);
    LocksAway(s.pcs, s.locks, s.cpus, p, pc, c);
    LksSame(s.pcs, s.lks, p, pc);
    SeenSame(s.pcs, s.mems, p, pc);
    CpusAway(s.pcs, s.ons, s.cpus, p, pc, c);
    StatusSet(s.pcs, s.sts, p, pc, s.sts[p]);
    WaitersSame(s, p, pc, s.sts[p]);
    SameStatus(s, p);
  }

  /** What the scheduler finds runnable has been switched away from. */
  lemma RunnableIsOff(s: Consistent, c: nat, p: nat)
    requires c < |s.cpus| && s.cpus[c] == Look(p) && p < |s.pcs| && s.sts[p].st == Runnable
    ensures Off(s.pcs[p])
  {
    Facts(s, p);
    assert CpuHolderOk(s.locks, s.cpus, c);
  }

  lemma DispatchInv(s: Consistent, c: nat, p: nat)
    requires c < |s.cpus| && s.cpus[c] == Look(p) && p < |s.pcs| && s.sts[p].st == Runnable
    ensures Inv(Move(s, p, Resumed(s.pcs[p])).(sts := s.sts[p := s.sts[p].(st := Running)],
                                               locks := s.locks[p := Thread(p)],
                                               ons := s.ons[p := c], cpus := s.cpus[c := Run(p)]))
  {
    var pc, x := Resumed(s.pcs[p]), s.sts[p].(st := Running);
    Facts(s, p);
    RunnableIsOff(s, c, p);
    LocksHere(s.pcs, s.locks, s.cpus, p, pc, c);
    LksSame(s.pcs, s.lks, p, pc);
    SeenSame(s.pcs, s.mems, p, pc);
    CpusHere(s.pcs, s.ons, s.cpus, p, pc, c);
    StatusSet(s.pcs, s.sts, p, pc, x);
    WaitersSame(s, p, pc, x);
  }

  lemma PickInv(s: Consistent, c: nat, p: nat)
    requires c < |s.cpus| && s.cpus[c] == Scan && p < |s.pcs| && s.locks[p] == Free
    ensures Inv(s.(locks := s.locks[p := Cpu(c)], cpus := s.cpus[c := Look(p)]))
  {
    LocksLook(s.pcs, s.locks, s.cpus, p, c);
    CpusQuiet(s.pcs, s.ons, s.cpus, c, Look(p));
  }

  lemma DoneInv(s: Consistent, c: nat, p: nat)
    requires c < |s.cpus| && (s.cpus[c] == Look(p) || s.cpus[c] == Back(p))
    ensures p < |s.pcs| && Inv(s.(locks := s.locks[p := Free], cpus := s.cpus[c := Scan]))
  {
    LocksDone(s.pcs, s.locks, s.cpus, p, c);
    CpusQuiet(s.pcs, s.ons, s.cpus, c, Scan);
  }

  lemma StepTake(s: Consistent, c: nat, m: nat)
    requires Enabled(s, Take(c, m))
    ensures Inv(Apply(s, Take(c, m)))
  {
    var p := s.cpus[c].p;
    Facts(s, p);
    TakeLkInv(s, p, m);
  }

  lemma StepRead(s: Consistent, c: nat)
    requires Enabled(s, Read(c))
    ensures Inv(Apply(s, Read(c)))
  {
    var p := s.cpus[c].p;
    Facts(s, p);
    ReadInv(s, p, s.pcs[p].h);
  }

  lemma StepUpdate(s: Consistent, c: nat, d: Mem, more: set<nat>)
    requires Enabled(s, Update(c, d, more))
    ensures Inv(Apply(s, Update(c, d, more)))
  {
    var p := s.cpus[c].p;
    Facts(s, p);
    UpdateInv(s, p, s.pcs[p].h, d, more);
  }

  lemma StepRelease(s: Consistent, c: nat)
    requires Enabled(s, Release(c))
    ensures Inv(Apply(s, Release(c)))
  {
    var p := s.cpus[c].p;
    Facts(s, p);
    DropLkInv(s, p, Idle(None), s.pcs[p].h.m);
  }

  lemma StepWake(s: Consistent, c: nat, ch: nat)
    requires Enabled(s, Wake(c, ch))
    ensures Inv(Apply(s, Wake(c, ch)))
  {
    var p := s.cpus[c].p;
    Facts(s, p);
    MoveInv(s, p, WNext(s.pcs[p].h, ch, 0), s.sts[p]);
    SameStatus(s, p);
  }

  lemma StepWakeNext(s: Consistent, c: nat)
    requires Enabled(s, WakeNext(c))
    ensures Inv(Apply(s, WakeNext(c)))
  {
    var p := s.cpus[c].p;
    Facts(s, p);
    var h, ch, i := s.pcs[p].h, s.pcs[p].ch, s.pcs[p].i;
    if i >= |s.pcs| {
      WakeEndInv(s, p, h, ch, i);
    } else if i == p {
      WakeSelfInv(s, p, h, ch);
    } else {
      TakeInv(s, p, WTest(h, ch, i), i);
    }
  }

  lemma StepWakeTest(s: Consistent, c: nat)
    requires Enabled(s, WakeTest(c))
    ensures Inv(Apply(s, WakeTest(c)))
  {
    var p := s.cpus[c].p;
    Facts(s, p);
    WakeTestInv(s, p, s.pcs[p].h, s.pcs[p].ch, s.pcs[p].i);
  }

  lemma StepWakeUnlock(s: Consistent, c: nat)
    requires Enabled(s, WakeUnlock(c))
    ensures Inv(Apply(s, WakeUnlock(c)))
  {
    var p := s.cpus[c].p;
    Facts(s, p);
    DropInv(s, p, WNext(s.pcs[p].h, s.pcs[p].ch, s.pcs[p].i + 1), s.pcs[p].i);
  }

  lemma StepSleep(s: Consistent, c: nat, ch: nat, cond: iset<Mem>)
    requires Enabled(s, Sleep(c, ch, cond))
    ensures Inv(Apply(s, Sleep(c, ch, cond)))
  {
    var p := s.cpus[c].p;
    Facts(s, p);
    SleepInv(s, p, s.pcs[p].h, ch, cond);
  }

  lemma StepTakeOwn(s: Consistent, c: nat)
    requires Enabled(s, TakeOwn(c))
    ensures Inv(Apply(s, TakeOwn(c)))
  {
    var p := s.cpus[c].p;
    Facts(s, p);
    TakeInv(s, p, SRelLk(s.pcs[p].w), p);
  }

  lemma StepDropLk(s: Consistent, c: nat)
    requires Enabled(s, DropLk(c))
    ensures Inv(Apply(s, DropLk(c)))
  {
    var p := s.cpus[c].p;
    Facts(s, p);
    DropLkInv(s, p, SSet(s.pcs[p].w), s.pcs[p].w.m);
  }

  lemma StepGoToSleep(s: Consistent, c: nat)
    requires Enabled(s, GoToSleep(c))
    ensures Inv(Apply(s, GoToSleep(c)))
  {
    var p := s.cpus[c].p;
    Facts(s, p);
    MoveInv(s, p, SSwtch(s.pcs[p].w), Sched(Sleeping, OnChan(s.pcs[p].w.ch)));
  }

  lemma StepTidy(s: Consistent, c: nat)
    requires Enabled(s, Tidy(c))
    ensures Inv(Apply(s, Tidy(c)))
  {
    var p := s.cpus[c].p;
    Facts(s, p);
    MoveInv(s, p, SRelP(s.pcs[p].m), s.sts[p].(chan := NoChan));
  }

  lemma StepDropOwn(s: Consistent, c: nat)
    requires Enabled(s, DropOwn(c))
    ensures Inv(Apply(s, DropOwn(c)))
  {
    var p := s.cpus[c].p;
    Facts(s, p);
    DropInv(s, p, Idle(if s.pcs[p].YRel? then s.pcs[p].back else Some(s.pcs[p].m)), p);
  }

  lemma StepPreempt(s: Consistent, c: nat)
    requires Enabled(s, Preempt(c))
    ensures Inv(Apply(s, Preempt(c)))
  {
    var p := s.cpus[c].p;
    Facts(s, p);
    TakeInv(s, p, YSet(s.pcs[p].back), p);
  }

  lemma StepGiveUp(s: Consistent, c: nat)
    requires Enabled(s, GiveUp(c))
    ensures Inv(Apply(s, GiveUp(c)))
  {
    var p := s.cpus[c].p;
    Facts(s, p);
    MoveInv(s, p, YSwtch(s.pcs[p].back), s.sts[p].(st := Runnable));
  }

  lemma StepPoke(s: Consistent, c: nat, q: nat)
    requires Enabled(s, Poke(c, q))
    ensures Inv(Apply(s, Poke(c, q)))
  {
    var p := s.cpus[c].p;
    Facts(s, p);
    TakeInv(s, p, KTest(s.pcs[p].back, q), q);
  }

  lemma StepPokeTest(s: Consistent, c: nat, wakes: bool)
    requires Enabled(s, PokeTest(c, wakes))
    ensures Inv(Apply(s, PokeTest(c, wakes)))
  {
    var p := s.cpus[c].p;
    Facts(s, p);
    PokeTestInv(s, p, s.pcs[p].back, s.pcs[p].q, wakes);
  }

  lemma StepPokeDone(s: Consistent, c: nat)
    requires Enabled(s, PokeDone(c))
    ensures Inv(Apply(s, PokeDone(c)))
  {
    var p := s.cpus[c].p;
    Facts(s, p);
    DropInv(s, p, Idle(s.pcs[p].back), s.pcs[p].q);
  }

  /** The switches between a process and a scheduler. */
  lemma StepCpu(s: Consistent, a: Action)
    requires Enabled(s, a) && (a.Swtch? || a.Pick? || a.Dispatch? || a.Skip? || a.Return?)
    ensures Inv(Apply(s, a))
  {
    match a
    case Swtch(c) => SwtchInv(s, c, s.cpus[c].p);
    case Pick(c, p) => PickInv(s, c, p);
    case Dispatch(c) => DispatchInv(s, c, s.cpus[c].p);
    case Skip(c) => DoneInv(s, c, s.cpus[c].p);
    case Return(c) => DoneInv(s, c, s.cpus[c].p);
  }

  predicate UnderLock(a: Action) {
    a.Take? || a.Read? || a.Update? || a.Release? || a.Wake? || a.WakeNext? || a.WakeTest? || a.WakeUnlock?
  }

  predicate InSleep(a: Action) {
    a.Sleep? || a.TakeOwn? || a.DropLk? || a.GoToSleep? || a.Tidy? || a.DropOwn?
  }

  predicate Elsewhere(a: Action) {
    a.Preempt? || a.GiveUp? || a.Poke? || a.PokeTest? || a.PokeDone?
  }

  lemma StepUnderLock(s: Consistent, a: Action)
    requires Enabled(s, a) && UnderLock(a)
    ensures Inv(Apply(s, a))
  {
    match a
    case Take(c, m) => StepTake(s, c, m);
    case Read(c) => StepRead(s, c);
    case Update(c, d, more) => StepUpdate(s, c, d, more);
    case Release(c) => StepRelease(s, c);
    case Wake(c, ch) => StepWake(s, c, ch);
    case WakeNext(c) => StepWakeNext(s, c);
    case WakeTest(c) => StepWakeTest(s, c);
    case WakeUnlock(c) => StepWakeUnlock(s, c);
  }

  lemma StepInSleep(s: Consistent, a: Action)
    requires Enabled(s, a) && InSleep(a)
    ensures Inv(Apply(s, a))
  {
    match a
    case Sleep(c, ch, cond) => StepSleep(s, c, ch, cond);
    case TakeOwn(c) => StepTakeOwn(s, c);
    case DropLk(c) => StepDropLk(s, c);
    case GoToSleep(c) => StepGoToSleep(s, c);
    case Tidy(c) => StepTidy(s, c);
    case DropOwn(c) => StepDropOwn(s, c);
  }

  lemma StepElsewhere(s: Consistent, a: Action)
    requires Enabled(s, a) && Elsewhere(a)
    ensures Inv(Apply(s, a))
  {
    match a
    case Preempt(c) => StepPreempt(s, c);
    case GiveUp(c) => StepGiveUp(s, c);
    case Poke(c, q) => StepPoke(s, c, q);
    case PokeTest(c, wakes) => StepPokeTest(s, c, wakes);
    case PokeDone(c) => StepPokeDone(s, c);
  }

  /** Whatever step is taken, by whichever CPU, the invariant survives. */
  lemma Step(s: Consistent, a: Action)
    requires Enabled(s, a)
    ensures Inv(Apply(s, a))
  {
    if UnderLock(a) {
      StepUnderLock(s, a);
    } else if InSleep(a) {
      StepInSleep(s, a);
    } else if Elsewhere(a) {
      StepElsewhere(s, a);
    } else {
      StepCpu(s, a);
    }
  }

  // ---------------------------------------------------------------- whole runs

  /** Every process is ready to start, no lock is held, and every CPU is in its scheduler. */
  ghost predicate Initial(s: State) {
    && Sized(s) && (forall m: nat :: m < |s.lks| ==> s.lks[m] == None)
    && (forall p: nat :: p < |s.pcs| ==> s.pcs[p] == YOff(None) && s.sts[p].st == Runnable && s.locks[p] == Free)
    && (forall c: nat :: c < |s.cpus| ==> s.cpus[c] == Scan)
  }

  ghost predicate StepAt(states: seq<State>, acts: seq<Action>, i: nat) {
    i < |acts| && i + 1 < |states| ==>
      Enabled(states[i], acts[i]) && states[i + 1] == Apply(states[i], acts[i])
  }

  /** Any interleaving of steps on any CPUs. */
  ghost predicate IsRun(states: seq<State>, acts: seq<Action>) {
    && |states| == |acts| + 1 && Initial(states[0])
    && forall i: nat :: StepAt(states, acts, i)
  }

  lemma InitialInv(s: State)
    requires Initial(s)
    ensures Inv(s)
  {
  }

  lemma RunAt(states: seq<State>, acts: seq<Action>, n: nat)
    requires IsRun(states, acts) && n < |acts|
    ensures Enabled(states[n], acts[n]) && states[n + 1] == Apply(states[n], acts[n])
  {
    assert StepAt(states, acts, n);
  }

  lemma {:induction false} RunInv(states: seq<State>, acts: seq<Action>, n: nat)
    requires IsRun(states, acts) && n <= |acts|
    ensures Inv(states[n])
  {
    if n == 0 {
      InitialInv(states[0]);
    } else {
      RunInv(states, acts, n - 1);
      RunAt(states, acts, n - 1);
      Step(states[n - 1], acts[n - 1]);
    }
  }

  /** No wakeup is lost.  A process that is SLEEPING is in sleep; if the condition it waits for
      has come true, then the process that has made it so still holds the spin lock and is bound
      to examine the sleeper in a wakeup on its channel.  So when the spin lock is free, nobody
      sleeps whose condition holds. */
  lemma NoLostWakeup(states: seq<State>, acts: seq<Action>, n: nat, q: nat)
    requires IsRun(states, acts) && n <= |acts| && q < |states[n].pcs| == |states[n].sts|
    requires states[n].sts[q].st == Sleeping
    ensures states[n].pcs[q].SSwtch? || states[n].pcs[q].SOff?
    ensures var w := states[n].pcs[q].w;
      && states[n].sts[q].chan == OnChan(w.ch) && w.m < |states[n].lks| == |states[n].mems|
      && (states[n].mems[w.m] in w.cond ==> Pending(states[n].pcs, states[n].lks, w.m, w.ch, q))
      && (states[n].lks[w.m] == None ==> states[n].mems[w.m] !in w.cond)
  {
    RunInv(states, acts, n);
    Facts(states[n], q);
    assert WaiterOk(states[n].pcs, states[n].sts, states[n].lks, states[n].mems, q);
  }

  /** The step with which a wakeup on channel ch examines process q, or passes over q because it
      is the caller. */
  predicate Examines(s: State, a: Action, ch: nat, q: nat) {
    At(s, a.c).Some? &&
    match At(s, a.c).value
    case WTest(_, c, i) => a.WakeTest? && c == ch && i == q
    case WNext(_, c, i) => a.WakeNext? && c == ch && i == q == s.cpus[a.c].p
    case _ => false
  }

  /** A step moves one process at most. */
  lemma OthersStay(s: State, a: Action, r: nat)
    requires Enabled(s, a) && r < |s.pcs|
    ensures |Apply(s, a).pcs| == |s.pcs|
    ensures s.cpus[a.c] == Scan || s.cpus[a.c].p != r ==> Apply(s, a).pcs[r] == s.pcs[r]
  {
  }

  /** A step of a process that owes an examination, other than that examination. */
  lemma OwesStay(s: State, a: Action, ch: nat, q: nat)
    requires Enabled(s, a) && q < |s.pcs| && !Examines(s, a, ch, q)
    requires At(s, a.c).Some? && Owing(At(s, a.c).value, ch, q)
    ensures s.cpus[a.c].p < |Apply(s, a).pcs| && Owing(Apply(s, a).pcs[s.cpus[a.c].p], ch, q)
  {
    match At(s, a.c).value
    case Hold(_) => HoldOwes(s, a, ch, q);
    case WNext(_, _, _) => NextOwes(s, a, ch, q);
    case WTest(_, _, _) => TestOwes(s, a, ch, q);
    case WDone(_, _, _) => DoneOwes(s, a, ch, q);
  }

  lemma HoldOwes(s: State, a: Action, ch: nat, q: nat)
    requires Enabled(s, a) && At(s, a.c).Some? && At(s, a.c).value.Hold? && Owing(At(s, a.c).value, ch, q)
    ensures s.cpus[a.c].p < |Apply(s, a).pcs| && Owing(Apply(s, a).pcs[s.cpus[a.c].p], ch, q)
  {
    assert a.Read? || a.Update? || a.Wake?;
  }

  lemma NextOwes(s: State, a: Action, ch: nat, q: nat)
    requires Enabled(s, a) && q < |s.pcs| && !Examines(s, a, ch, q)
    requires At(s, a.c).Some? && At(s, a.c).value.WNext? && Owing(At(s, a.c).value, ch, q)
    ensures s.cpus[a.c].p < |Apply(s, a).pcs| && Owing(Apply(s, a).pcs[s.cpus[a.c].p], ch, q)
  {
    assert a.WakeNext?;
  }

  lemma TestOwes(s: State, a: Action, ch: nat, q: nat)
    requires Enabled(s, a) && !Examines(s, a, ch, q)
    requires At(s, a.c).Some? && At(s, a.c).value.WTest? && Owing(At(s, a.c).value, ch, q)
    ensures s.cpus[a.c].p < |Apply(s, a).pcs| && Owing(Apply(s, a).pcs[s.cpus[a.c].p], ch, q)
  {
    assert a.WakeTest?;
  }

  lemma DoneOwes(s: State, a: Action, ch: nat, q: nat)
    requires Enabled(s, a) && At(s, a.c).Some? && At(s, a.c).value.WDone? && Owing(At(s, a.c).value, ch, q)
    ensures s.cpus[a.c].p < |Apply(s, a).pcs| && Owing(Apply(s, a).pcs[s.cpus[a.c].p], ch, q)
  {
    assert a.WakeUnlock?;
  }

  lemma HolderStays(s: Consistent, a: Action, m: nat, ch: nat, q: nat)
    requires Enabled(s, a) && Pending(s.pcs, s.lks, m, ch, q)
    ensures m < |Apply(s, a).lks| && Apply(s, a).lks[m] == s.lks[m]
  {
    if a.Release? || a.DropLk? { Facts(s, s.cpus[a.c].p); }
  }

  /** A process that has to examine a sleeper keeps the spin lock until it has done so. */
  lemma DebtStays(s: Consistent, a: Action, m: nat, ch: nat, q: nat)
    requires Enabled(s, a) && Pending(s.pcs, s.lks, m, ch, q) && q < |s.pcs| && !Examines(s, a, ch, q)
    ensures |Apply(s, a).pcs| == |s.pcs| && Pending(Apply(s, a).pcs, Apply(s, a).lks, m, ch, q)
  {
    HolderStays(s, a, m, ch, q);
    var r := s.lks[m].value;
    OthersStay(s, a, r);
    if !s.cpus[a.c].Scan? && s.cpus[a.c].p == r && At(s, a.c).Some? {
      OwesStay(s, a, ch, q);
    } else {
      DebtElsewhere(s, a, r, ch, q);
    }
  }

  /** A scheduler's step leaves a process that owes something where it is. */
  lemma DebtElsewhere(s: Consistent, a: Action, r: nat, ch: nat, q: nat)
    requires Enabled(s, a) && r < |s.pcs| && Owing(s.pcs[r], ch, q)
    requires s.cpus[a.c].Scan? || s.cpus[a.c].p != r || At(s, a.c) == None
    ensures r < |Apply(s, a).pcs| && Owing(Apply(s, a).pcs[r], ch, q)
  {
    OthersStay(s, a, r);
    if !s.cpus[a.c].Scan? && s.cpus[a.c].p == r {
      Facts(s, r);
      assert a.Dispatch? || a.Skip? || a.Return?;
    }
  }

  /** A wakeup on channel ch is due to process q, from the holder of spin lock m. */
  ghost predicate Due(s: State, m: nat, ch: nat, q: nat) {
    q < |s.pcs| && Pending(s.pcs, s.lks, m, ch, q)
  }

  lemma DebtStep(states: seq<State>, acts: seq<Action>, n: nat, m: nat, ch: nat, q: nat)
    requires IsRun(states, acts) && n < |acts| && Due(states[n], m, ch, q) && !Examines(states[n], acts[n], ch, q)
    ensures Due(states[n + 1], m, ch, q)
  {
    RunInv(states, acts, n);
    RunAt(states, acts, n);
    DebtStays(states[n], acts[n], m, ch, q);
  }

  /** Whatever happens meanwhile, a wakeup that is due to a process stays due until the step that
      examines that very process. */
  lemma {:induction false} DebtsArePaid(states: seq<State>, acts: seq<Action>, i: nat, k: nat, m: nat, ch: nat, q: nat)
    requires IsRun(states, acts) && i <= k <= |acts| && Due(states[i], m, ch, q)
    requires forall j :: i <= j < k ==> !Examines(states[j], acts[j], ch, q)
    ensures Due(states[k], m, ch, q)
  {
    if i < k {
      DebtsArePaid(states, acts, i, k - 1, m, ch, q);
      DebtStep(states, acts, k - 1, m, ch, q);
    }
  }

  /** A process that is RUNNING, or whose code is being executed, is so on exactly one CPU. */
  lemma OneCpu(states: seq<State>, acts: seq<Action>, n: nat, p: nat, c: nat, d: nat)
    requires IsRun(states, acts) && n <= |acts| && p < |states[n].pcs| && c < |states[n].cpus| && d < |states[n].cpus|
    requires states[n].cpus[c] == Run(p) && states[n].cpus[d] == Run(p)
    ensures c == d
  {
    RunInv(states, acts, n);
    assert RunOk(states[n].pcs, states[n].ons, states[n].cpus, c);
    assert RunOk(states[n].pcs, states[n].ons, states[n].cpus, d);
  }

  lemma RunningIsRun(states: seq<State>, acts: seq<Action>, n: nat, p: nat)
    requires IsRun(states, acts) && n <= |acts| && p < |states[n].pcs|
    ensures Sized(states[n])
    ensures states[n].sts[p].st == Running ==> exists c: nat :: c < |states[n].cpus| && states[n].cpus[c] == Run(p)
  {
    RunInv(states, acts, n);
    var s := states[n];
    Facts(s, p);
    assert OnOk(s.pcs, s.ons, s.cpus, p);
    if s.sts[p].st == Running { assert s.cpus[s.ons[p]] == Run(p); }
  }

  /** None of sched's panics can happen: a process that calls swtch holds its own spin lock and
      no other, and is no longer RUNNING. */
  lemma SchedIsSafe(states: seq<State>, acts: seq<Action>, n: nat, p: nat)
    requires IsRun(states, acts) && n <= |acts| && p < |states[n].pcs|
    requires states[n].pcs[p].SSwtch? || states[n].pcs[p].YSwtch?
    ensures Sized(states[n]) && states[n].locks[p] == Thread(p) && states[n].sts[p].st != Running
    ensures forall m: nat :: m < |states[n].lks| ==> states[n].lks[m] != Some(p)
    ensures forall q: nat :: q < |states[n].pcs| && q != p ==> states[n].locks[q] != Thread(p)
  {
    RunInv(states, acts, n);
    var s := states[n];
    Facts(s, p);
    forall q: nat | q < |s.pcs| && q != p ensures s.locks[q] != Thread(p) { assert LockOk(s.pcs, s.locks, s.cpus, q); }
    forall m: nat | m < |s.lks| ensures s.lks[m] != Some(p) { assert LkOk(s.pcs, s.lks, m); }
  }

  /** The process whose status a step can change. */
  predicate Concerns(s: State, a: Action, q: nat) {
    match a
    case WakeTest(c) => At(s, c).Some? && At(s, c).value.WTest? && At(s, c).value.i == q
    case PokeTest(c, _) => At(s, c).Some? && At(s, c).value.KTest? && At(s, c).value.q == q
    case GoToSleep(c) => c < |s.cpus| && s.cpus[c] == Run(q)
    case GiveUp(c) => c < |s.cpus| && s.cpus[c] == Run(q)
    case Dispatch(c) => c < |s.cpus| && s.cpus[c] == Look(q)
    case _ => false
  }

  lemma StatusStays(s: State, a: Action, q: nat)
    requires Enabled(s, a) && q < |s.sts| && !Concerns(s, a, q)
    ensures |Apply(s, a).sts| == |s.sts| && Apply(s, a).sts[q].st == s.sts[q].st
  {
  }

  /** How a process's state changes: a sleeper becomes runnable by a wakeup on its own channel or
      by kkill, and both do wake it; it goes to sleep and yields by itself; it is run by a
      scheduler, and only if it is runnable. */
  lemma StatesChange(states: seq<State>, acts: seq<Action>, n: nat, q: nat)
    requires IsRun(states, acts) && n < |acts| && q < |states[n].sts|
    ensures Enabled(states[n], acts[n]) && |states[n + 1].sts| == |states[n].sts|
    ensures !Concerns(states[n], acts[n], q) ==> states[n + 1].sts[q].st == states[n].sts[q].st
    ensures Concerns(states[n], acts[n], q) ==>
      var x, y := states[n].sts[q], states[n + 1].sts[q].st;
      match acts[n]
      case WakeTest(c) =>
        y == if x.st == Sleeping && x.chan == OnChan(At(states[n], c).value.ch) then Runnable else x.st
      case PokeTest(c, wakes) => y == if x.st == Sleeping && wakes then Runnable else x.st
      case GoToSleep(c) => x.st == Running && y == Sleeping
      case GiveUp(c) => x.st == Running && y == Runnable
      case Dispatch(c) => x.st == Runnable && y == Running
      case _ => false
  {
    RunInv(states, acts, n);
    RunAt(states, acts, n);
    if !Concerns(states[n], acts[n], q) {
      StatusStays(states[n], acts[n], q);
    } else {
      Facts(states[n], q);
    }
  }

  /** The spin lock that a process in sleep has to hold again when sleep returns. */
  function Retakes(pc: Pc): Option<nat> {
    match pc
    case SAcq(w) => Some(w.m)
    case SRelLk(w) => Some(w.m)
    case SSet(w) => Some(w.m)
    case SSwtch(w) => Some(w.m)
    case SOff(w) => Some(w.m)
    case STidy(m) => Some(m)
    case SRelP(m) => Some(m)
    case Idle(back) => back
    case YSet(back) => back
    case YSwtch(back) => back
    case YOff(back) => back
    case YRel(back) => back
    case KTest(back, _) => back
    case KRel(back, _) => back
    case _ => None
  }

  predicate Takes(s: State, a: Action, p: nat) {
    a.Take? && a.c < |s.cpus| && s.cpus[a.c] == Run(p)
  }

  lemma RetakesStep(s: Consistent, a: Action, p: nat)
    requires Enabled(s, a) && p < |s.pcs| && Retakes(s.pcs[p]).Some?
    ensures p < |Apply(s, a).pcs|
    ensures if Takes(s, a, p) then Some(a.m) == Retakes(s.pcs[p]) && LkOf(Apply(s, a).pcs[p]) == Some(a.m)
      else Retakes(Apply(s, a).pcs[p]) == Retakes(s.pcs[p])
  {
    OthersStay(s, a, p);
    if s.cpus[a.c] == Run(p) { RetakesOwn(s, a, p); } else if s.cpus[a.c] == Look(p) { RetakesResumed(s, a, p); }
  }

  lemma RetakesOwn(s: State, a: Action, p: nat)
    requires Enabled(s, a) && p < |s.pcs| && Retakes(s.pcs[p]).Some? && s.cpus[a.c] == Run(p)
    ensures p < |Apply(s, a).pcs|
    ensures if a.Take? then Some(a.m) == Retakes(s.pcs[p]) && LkOf(Apply(s, a).pcs[p]) == Some(a.m)
      else Retakes(Apply(s, a).pcs[p]) == Retakes(s.pcs[p])
  {
    if a.TakeOwn? || a.DropLk? || a.GoToSleep? || a.Tidy? { RetakesInSleep(s, a, p); } else { RetakesOutside(s, a, p); }
  }

  lemma RetakesInSleep(s: State, a: Action, p: nat)
    requires Enabled(s, a) && p < |s.pcs| && s.cpus[a.c] == Run(p)
    requires a.TakeOwn? || a.DropLk? || a.GoToSleep? || a.Tidy?
    ensures p < |Apply(s, a).pcs| && Retakes(Apply(s, a).pcs[p]) == Retakes(s.pcs[p])
  {
  }

  lemma RetakesOutside(s: State, a: Action, p: nat)
    requires Enabled(s, a) && p < |s.pcs| && Retakes(s.pcs[p]).Some? && s.cpus[a.c] == Run(p)
    requires !a.TakeOwn? && !a.DropLk? && !a.GoToSleep? && !a.Tidy?
    ensures p < |Apply(s, a).pcs|
    ensures if a.Take? then Some(a.m) == Retakes(s.pcs[p]) && LkOf(Apply(s, a).pcs[p]) == Some(a.m)
      else Retakes(Apply(s, a).pcs[p]) == Retakes(s.pcs[p])
  {
  }

  lemma RetakesResumed(s: State, a: Action, p: nat)
    requires Enabled(s, a) && p < |s.pcs| && s.cpus[a.c] == Look(p)
    ensures p < |Apply(s, a).pcs| && Retakes(Apply(s, a).pcs[p]) == Retakes(s.pcs[p]) && !a.Take?
  {
    assert a.Dispatch? || a.Skip?;
  }

  /** sleep returns with the spin lock that it was given: whatever happens, that one is the first
      that the sleeper takes. */
  lemma {:induction false} SleepReturnsLocked(states: seq<State>, acts: seq<Action>, i: nat, k: nat, p: nat)
    requires IsRun(states, acts) && i < k <= |acts| && acts[i].Sleep? && acts[i].c < |states[i].cpus|
    requires states[i].cpus[acts[i].c] == Run(p) && p < |states[i].pcs| && states[i].pcs[p].Hold?
    requires forall j :: i < j < k ==> !Takes(states[j], acts[j], p)
    ensures p < |states[k].pcs| && Retakes(states[k].pcs[p]) == Some(states[i].pcs[p].h.m)
    ensures k < |acts| && Takes(states[k], acts[k], p) ==> acts[k].m == states[i].pcs[p].h.m
  {
    if k == i + 1 {
      RunAt(states, acts, i);
    } else {
      SleepReturnsLocked(states, acts, i, k - 1, p);
      RunInv(states, acts, k - 1);
      RunAt(states, acts, k - 1);
      RetakesStep(states[k - 1], acts[k - 1], p);
    }
    if k < |acts| {
      RunInv(states, acts, k);
      RunAt(states, acts, k);
      RetakesStep(states[k], acts[k], p);
    }
  }

  /** The CPU on which the holder of process q's spin lock runs. */
  function HolderCpu(s: State, q: nat): nat
    requires q < |s.locks| && s.locks[q] != Free
  {
    if s.locks[q].Thread? then (if s.locks[q].r < |s.ons| then s.ons[s.locks[q].r] else 0) else s.locks[q].c
  }

  /** What a process does next that holds a process's spin lock. */
  function NextUnder(pc: Pc, c: nat): Action {
    match pc
    case YSet(_) => GiveUp(c)
    case YSwtch(_) => Swtch(c)
    case YRel(_) => DropOwn(c)
    case SRelLk(_) => DropLk(c)
    case SSet(_) => GoToSleep(c)
    case SSwtch(_) => Swtch(c)
    case STidy(_) => Tidy(c)
    case SRelP(_) => DropOwn(c)
    case KTest(_, _) => PokeTest(c, true)
    case KRel(_, _) => PokeDone(c)
    case WTest(_, _, _) => WakeTest(c)
    case _ => WakeUnlock(c)
  }

  lemma ThreadMoves(s: Consistent, r: nat)
    requires r < |s.pcs| && Target(s.pcs[r], r).Some?
    ensures s.ons[r] < |s.cpus| && Enabled(s, NextUnder(s.pcs[r], s.ons[r]))
  {
    Facts(s, r);
    assert OnOk(s.pcs, s.ons, s.cpus, r);
  }

  /** Whoever holds a process's spin lock can go on: waiting for it comes to an end. */
  lemma HolderMoves(s: Consistent, q: nat) returns (a: Action)
    requires q < |s.pcs| && s.locks[q] != Free
    ensures Enabled(s, a) && a.c == HolderCpu(s, q)
  {
    assert LockOk(s.pcs, s.locks, s.cpus, q);
    match s.locks[q]
    case Thread(r) =>
      ThreadMoves(s, r);
      a := NextUnder(s.pcs[r], s.ons[r]);
    case Cpu(c) =>
      a := if s.cpus[c].Back? then Return(c) else if s.sts[q].st == Runnable then Dispatch(c) else Skip(c);
  }

  /** What a CPU does next that runs a process outside of those points, if it need not wait. */
  lemma RunnerMoves(s: Consistent, c: nat, p: nat) returns (a: Action)
    requires c < |s.cpus| && s.cpus[c] == Run(p) && p < |s.pcs| && Target(s.pcs[p], p) == None && s.locks[p] == Free
    requires s.pcs[p].WNext? && s.pcs[p].i < |s.pcs| && s.pcs[p].i != p ==> s.locks[s.pcs[p].i] == Free
    ensures Enabled(s, a) && a.c == c
  {
    Facts(s, p);
    assert RunOk(s.pcs, s.ons, s.cpus, c);
    a := if s.pcs[p].Idle? then Preempt(c) else if s.pcs[p].Hold? then Wake(c, 0)
         else if s.pcs[p].WNext? then WakeNext(c) else TakeOwn(c);
  }

  /** There is no deadlock: in every state of every run some CPU can take a step, and so can the
      one that holds a process's spin lock. */
  lemma NoDeadlock(states: seq<State>, acts: seq<Action>, n: nat)
    requires IsRun(states, acts) && n <= |acts| && |states[n].cpus| > 0 && |states[n].pcs| > 0
    ensures exists a: Action :: Enabled(states[n], a)
    ensures forall q: nat :: q < |states[n].pcs| && q < |states[n].locks| && states[n].locks[q] != Free ==>
      exists b: Action :: Enabled(states[n], b) && b.c == HolderCpu(states[n], q)
  {
    RunInv(states, acts, n);
    var s: Consistent := states[n];
    forall q: nat | q < |s.pcs| && q < |s.locks| && s.locks[q] != Free
      ensures exists b: Action :: Enabled(s, b) && b.c == HolderCpu(s, q)
    {
      var b := HolderMoves(s, q);
    }
    if q: nat :| q < |s.pcs| && s.locks[q] != Free {
      var a := HolderMoves(s, q);
    } else if s.cpus[0] == Scan {
      assert Enabled(s, Pick(0, 0));
    } else {
      assert CpuHolderOk(s.locks, s.cpus, 0) && RunOk(s.pcs, s.ons, s.cpus, 0);
      Facts(s, s.cpus[0].p);
      var a := RunnerMoves(s, 0, s.cpus[0].p);
    }
  }
}
