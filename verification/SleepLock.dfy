/** The sleep-locks of kernel/sleeplock.c, as clients of sleep and wakeup: acquiresleep and
  releasesleep are what processes do with the memory that the sleep-lock's spin lock guards. */
module SleepLock {
  import opened Basics
  import opened SleepWakeup

  /** The addresses of the fields locked and pid. */
  const LOCKED: nat := 0
  const PID: nat := 1

  function Field(d: Mem, a: nat): int {
    if a in d then d[a] else 0
  }

  /** What acquiresleep waits for. */
  ghost function Unlocked(): iset<Mem> {
    iset d: Mem | Field(d, LOCKED) == 0
  }

  predicate HeldBy(d: Mem, p: nat) {
    Field(d, LOCKED) != 0 && Field(d, PID) == p
  }

  /** The process that takes step a from s, if it changes the memory of spin lock m. */
  ghost predicate Changes(s: State, a: Action, m: nat, p: nat) {
    a.Update? && Enabled(s, a) && s.cpus[a.c] == Run(p) && p < |s.pcs| && s.pcs[p].Hold? && s.pcs[p].h.m == m
  }

  /** Process p has come out of acquiresleep's last assignments more recently than it has
      executed those of releasesleep. */
  ghost predicate Inside(states: seq<State>, acts: seq<Action>, m: nat, n: nat, p: nat)
    requires n <= |acts| < |states|
  {
    if n == 0 then false
    else if Changes(states[n - 1], acts[n - 1], m, p) then Field(acts[n - 1].d, LOCKED) != 0
    else Inside(states, acts, m, n - 1, p)
  }

  /** acquiresleep sets locked and pid after its loop has found locked clear. */
  ghost predicate Acquires(s: State, a: Action, p: nat)
    requires a.Update? && p < |s.pcs| && s.pcs[p].Hold?
  {
    var h := s.pcs[p].h;
    h.seen.Some? && Field(h.seen.value, LOCKED) == 0 && a.d == h.seen.value[LOCKED := 1][PID := p]
  }

  /** releasesleep clears them and calls wakeup on the sleep-lock. */
  ghost predicate Releases(s: State, a: Action, ch: nat)
    requires a.Update?
  {
    Field(a.d, LOCKED) == 0 && Field(a.d, PID) == 0 && ch in a.more
  }

  ghost predicate ByTheBook(states: seq<State>, acts: seq<Action>, m: nat, ch: nat, i: nat, p: nat)
    requires i < |acts| < |states|
  {
    Changes(states[i], acts[i], m, p) ==>
      Acquires(states[i], acts[i], p) || (Inside(states, acts, m, i, p) && Releases(states[i], acts[i], ch))
  }

  /** A run in which the memory of spin lock m is a sleep-lock with channel ch: it is changed by
      acquiresleep and releasesleep only, and a process calls releasesleep only when it has the
      sleep-lock. */
  ghost predicate UsesLock(states: seq<State>, acts: seq<Action>, m: nat, ch: nat) {
    && IsRun(states, acts) && m < |states[0].mems| && Field(states[0].mems[m], LOCKED) == 0
    && forall i: nat, p: nat :: i < |acts| ==> ByTheBook(states, acts, m, ch, i, p)
  }

  /** Only an update changes memory. */
  lemma MemsStay(s: State, a: Action)
    requires Enabled(s, a) && !a.Update?
    ensures Apply(s, a).mems == s.mems
  {
  }

  lemma MemUpdated(s: State, c: nat, d: Mem, more: set<nat>)
    requires Enabled(s, Update(c, d, more))
    ensures s.cpus[c].Run? && s.cpus[c].p < |s.pcs| && s.pcs[s.cpus[c].p].Hold?
    ensures s.pcs[s.cpus[c].p].h.m < |s.mems|
    ensures Apply(s, Update(c, d, more)).mems == s.mems[s.pcs[s.cpus[c].p].h.m := d]
  {
  }

  lemma {:induction false} SizesKept(states: seq<State>, acts: seq<Action>, n: nat)
    requires IsRun(states, acts) && n <= |acts|
    ensures |states[n].mems| == |states[0].mems|
  {
    if n > 0 {
      SizesKept(states, acts, n - 1);
      RunAt(states, acts, n - 1);
      var s, a := states[n - 1], acts[n - 1];
      if a.Update? { MemUpdated(s, a.c, a.d, a.more); } else { MemsStay(s, a); }
    }
  }

  /** Unless some process changes it, the memory of a spin lock stays as it is. */
  lemma Unchanged(s: State, a: Action, m: nat)
    requires Enabled(s, a) && m < |s.mems|
    ensures m < |Apply(s, a).mems|
    ensures (exists p: nat :: Changes(s, a, m, p)) || Apply(s, a).mems[m] == s.mems[m]
  {
    if a.Update? {
      MemUpdated(s, a.c, a.d, a.more);
      var p := s.cpus[a.c].p;
      assert s.pcs[p].h.m == m ==> Changes(s, a, m, p);
    } else {
      MemsStay(s, a);
    }
  }

  lemma ChangedTo(s: State, a: Action, m: nat, p: nat)
    requires Changes(s, a, m, p)
    ensures m < |s.mems| && Apply(s, a).mems == s.mems[m := a.d] && forall q: nat :: Changes(s, a, m, q) ==> q == p
  {
    MemUpdated(s, a.c, a.d, a.more);
  }

  /** Mutual exclusion: a process is between acquiresleep and releasesleep exactly when the
      sleep-lock's fields say so. */
  lemma {:induction false} MutualExclusion(states: seq<State>, acts: seq<Action>, m: nat, ch: nat, n: nat, p: nat)
    requires UsesLock(states, acts, m, ch) && n <= |acts|
    ensures m < |states[n].mems| && (Inside(states, acts, m, n, p) <==> HeldBy(states[n].mems[m], p))
    decreases n
  {
    SizesKept(states, acts, n);
    if n > 0 {
      var s, a := states[n - 1], acts[n - 1];
      SizesKept(states, acts, n - 1);
      RunInv(states, acts, n - 1);
      MutualExclusion(states, acts, m, ch, n - 1, p);
      RunAt(states, acts, n - 1);
      Unchanged(s, a, m);
      if q: nat :| Changes(s, a, m, q) {
        ChangedTo(s, a, m, q);
        Facts(s, q);
        assert ByTheBook(states, acts, m, ch, n - 1, q);
        MutualExclusion(states, acts, m, ch, n - 1, q);
      }
    }
  }

  /** Two processes are never inside at once. */
  lemma OneInside(states: seq<State>, acts: seq<Action>, m: nat, ch: nat, n: nat, p: nat, q: nat)
    requires UsesLock(states, acts, m, ch) && n <= |acts| && Inside(states, acts, m, n, p)
    requires Inside(states, acts, m, n, q)
    ensures p == q
  {
    MutualExclusion(states, acts, m, ch, n, p);
    MutualExclusion(states, acts, m, ch, n, q);
  }

  /** When nobody is inside and the spin lock is free, nobody sleeps in acquiresleep. */
  lemma NobodyStuck(states: seq<State>, acts: seq<Action>, m: nat, ch: nat, n: nat, q: nat)
    requires UsesLock(states, acts, m, ch) && n <= |acts| && forall p: nat :: !Inside(states, acts, m, n, p)
    requires m < |states[n].lks| && states[n].lks[m] == None && q < |states[n].pcs| == |states[n].sts|
    requires (states[n].pcs[q].SSwtch? || states[n].pcs[q].SOff?) && states[n].pcs[q].w == Want(m, ch, Unlocked())
    ensures states[n].sts[q].st != Sleeping
  {
    if states[n].sts[q].st == Sleeping {
      NoLostWakeup(states, acts, n, q);
      PidIsNat(states, acts, m, ch, n);
      var d := states[n].mems[m];
      if Field(d, LOCKED) != 0 { MutualExclusion(states, acts, m, ch, n, Field(d, PID)); }
    }
  }

  lemma {:induction false} PidIsNat(states: seq<State>, acts: seq<Action>, m: nat, ch: nat, n: nat)
    requires UsesLock(states, acts, m, ch) && n <= |acts|
    ensures m < |states[n].mems| && (Field(states[n].mems[m], LOCKED) != 0 ==> Field(states[n].mems[m], PID) >= 0)
  {
    SizesKept(states, acts, n);
    if n > 0 {
      var s, a := states[n - 1], acts[n - 1];
      PidIsNat(states, acts, m, ch, n - 1);
      RunAt(states, acts, n - 1);
      Unchanged(s, a, m);
      if q: nat :| Changes(s, a, m, q) {
        ChangedTo(s, a, m, q);
        assert ByTheBook(states, acts, m, ch, n - 1, q);
      }
    }
  }
}
