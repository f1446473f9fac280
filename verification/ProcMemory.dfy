/** The memory side of processes: freewalk and uvmfree of kernel/vm.c, allocproc, freeproc,
  growproc and kfork of kernel/proc.c, and sys_sbrk of kernel/sysproc.c. */
module ProcMemory {
  import opened Basics
  import opened CowMemory
  import opened VmCode

  // ---------------------------------------------------------------- freewalk

  /** t is r without the tables of p below entries [0, n) of the table at path, and, if self,
      without that table. */
  ghost predicate Pruned(r: Refs, t: Refs, p: Pid, path: Path, n: nat, self: bool) {
    forall x: Ref ::
      if x.Node? && x.p == p && (Under(path, n, x.path) || (self && x.path == path)) then x !in t else SameAt(r, t, x)
  }

  lemma PrunedNext(r: Refs, t: Refs, u: Refs, p: Pid, path: Path, i: nat)
    requires !path.Low? && Pruned(r, t, p, path, i, false) && Pruned(t, u, p, Child(path, i), ENTRIES, true)
    requires Tree(t)
    ensures Pruned(r, u, p, path, i + 1, false)
  {
    forall x: Ref ensures if x.Node? && x.p == p && Under(path, i + 1, x.path) then x !in u else SameAt(r, u, x) {
      assert SameAt(t, u, x) || x !in u;
      assert x in t ==> RefOk(t, x);
    }
  }

  /** Nothing to free below an entry that is not valid. */
  lemma PrunedSkip(t: Refs, p: Pid, path: Path, i: nat)
    requires !path.Low? && Node(p, Child(path, i)) !in t && Tree(t)
    ensures Pruned(t, t, p, Child(path, i), ENTRIES, true)
  {
    forall x: Ref | x in t ensures x.Node? && x.p == p ==> !Under(Child(path, i), ENTRIES, x.path) {
      assert RefOk(t, x);
    }
  }

  lemma PrunedLast(r: Refs, t: Refs, p: Pid, path: Path)
    requires Pruned(r, t, p, path, ENTRIES, false)
    ensures Pruned(r, t - {Node(p, path)}, p, path, ENTRIES, true)
  {
    forall x: Ref | x != Node(p, path) && !(x.Node? && x.p == p && Under(path, ENTRIES, x.path))
      ensures SameAt(r, t - {Node(p, path)}, x)
    {
      assert SameAt(r, t, x);
    }
  }

  /** The tables that freewalk has emptied have nothing below them. */
  lemma PrunedChildless(r: Refs, t: Refs, p: Pid, path: Path)
    requires Pruned(r, t, p, path, ENTRIES, false) && Tree(t) && NoLeaves(t, p, 0)
    ensures Childless(t, Node(p, path))
  {
    forall y | y in t && y.p == p
      ensures match y
        case Leaf(_, v) => path != LowPath(v)
        case Node(_, Root) => true
        case Node(_, Mid(_)) => path != Root
        case Node(_, Low(i, _)) => path != Mid(i)
        case _ => true
    {
      assert RefOk(t, y);
      assert !(y.Node? && Under(path, ENTRIES, y.path));
    }
  }

  function Depth(path: Path): nat {
    match path
    case Root => 2
    case Mid(_) => 1
    case Low(_, _) => 0
  }

  lemma NoLeavesKept(r: Refs, t: Refs, p: Pid, path: Path, n: nat, self: bool)
    requires NoLeaves(r, p, 0) && Pruned(r, t, p, path, n, self)
    ensures NoLeaves(t, p, 0)
  {
    assert forall w: nat :: SameAt(r, t, Leaf(p, w));
  }

  /** What freewalk has done to s when it has dealt with n entries of the table at path. */
  ghost predicate Freeing(s: State, t: State, p: Pid, path: Path, n: nat) {
    SameMem(s, t) && t.sz == s.sz && NoLeaves(t.refs, p, 0) && Pruned(s.refs, t.refs, p, path, n, false)
  }

  lemma FreeingNext(s: State, t: Consistent, u: State, p: Pid, path: Path, i: nat)
    requires !path.Low? && Freeing(s, t, p, path, i) && SameMem(t, u) && u.sz == t.sz
    requires Pruned(t.refs, u.refs, p, Child(path, i), ENTRIES, true)
    ensures Freeing(s, u, p, path, i + 1)
  {
    PrunedNext(s.refs, t.refs, u.refs, p, path, i);
    NoLeavesKept(t.refs, u.refs, p, Child(path, i), ENTRIES, true);
  }

  /** p has no mappings above user memory. */
  ghost predicate NoFixed(fixed: map<(Pid, nat), Fixed>, p: Pid) {
    forall v: nat :: (p, v) !in fixed
  }

  /** p has at most the trampoline and the trapframe there. */
  ghost predicate FewFixed(fixed: map<(Pid, nat), Fixed>, p: Pid) {
    forall v: nat :: (p, v) in fixed ==> v == TRAMPOLINE || v == TRAPFRAME
  }

  /** f with the trampoline and trapframe of p. */
  ghost function WithFixed(f: map<(Pid, nat), Fixed>, p: Pid, tf: nat): map<(Pid, nat), Fixed> {
    f[(p, TRAMPOLINE) := Trampoline][(p, TRAPFRAME) := Trapframe(tf)]
  }

  lemma FixedUndone(f: map<(Pid, nat), Fixed>, p: Pid, tf: nat)
    requires NoFixed(f, p)
    ensures f - {(p, TRAMPOLINE)} == f && f[(p, TRAMPOLINE) := Trampoline] - {(p, TRAMPOLINE)} == f
    ensures FewFixed(WithFixed(f, p, tf), p)
    ensures WithFixed(f, p, tf) - {(p, TRAMPOLINE)} - {(p, TRAPFRAME)} == f
  {
  }

  /** freewalk: every table below and including this one is freed, once, and nothing else.
      There is no leaf to panic about. */
  method Freewalk(m: Vm, p: Pid, path: Path)
    requires Node(p, path) in m.s.refs && NoLeaves(m.s.refs, p, 0) && NoFixed(m.fixed, p)
    modifies m`s
    ensures SameMem(old(m.s), m.s) && m.s.sz == old(m.s.sz)
    ensures Pruned(old(m.s.refs), m.s.refs, p, path, ENTRIES, true)
    decreases Depth(path), 1
  {
    FreeEntries(m, p, path);
    ghost var t := m.s;
    PrunedChildless(old(m.s.refs), m.s.refs, p, path);
    NodeInRange(old(m.s), m.s, p, path);
    PrunedLast(old(m.s.refs), m.s.refs, p, path);
    m.Kfree(Node(p, path));
    SameMemTrans(old(m.s), t, m.s);
  }

  lemma NodeInRange(s: State, t: Consistent, p: Pid, path: Path)
    requires Node(p, path) in s.refs && Pruned(s.refs, t.refs, p, path, ENTRIES, false)
    ensures Node(p, path) in t.refs && t.refs[Node(p, path)].ppn < |t.refcnt|
  {
    assert SameAt(s.refs, t.refs, Node(p, path));
  }

  /** freewalk's loop over the entries of a table. */
  method FreeEntries(m: Vm, p: Pid, path: Path)
    requires Node(p, path) in m.s.refs && NoLeaves(m.s.refs, p, 0) && NoFixed(m.fixed, p)
    modifies m`s
    ensures Freeing(old(m.s), m.s, p, path, ENTRIES)
    decreases Depth(path), 0
  {
    var i := 0;
    while i < ENTRIES
      invariant 0 <= i <= ENTRIES && Freeing(old(m.s), m.s, p, path, i)
    {
      if !path.Low? {
        FreeEntry(m, p, path, i, old(m.s));
      }
      i := i + 1;
    }
  }

  method FreeEntry(m: Vm, p: Pid, path: Path, i: nat, ghost s0: State)
    requires !path.Low? && i < ENTRIES && Freeing(s0, m.s, p, path, i) && NoFixed(m.fixed, p)
    modifies m`s
    ensures Freeing(s0, m.s, p, path, i + 1)
    decreases Depth(Child(path, i)), 2
  {
    if Node(p, Child(path, i)) in m.s.refs {
      Freewalk(m, p, Child(path, i));
    } else {
      PrunedSkip(m.s.refs, p, path, i);
    }
    FreeingNext(s0, old(m.s), m.s, p, path, i);
  }

  // ---------------------------------------------------------------- uvmfree and freeproc

  /** Process p has lost its memory; nobody else has lost anything. */
  ghost predicate Cleared(s: State, t: State, p: Pid) {
    && |t.data| == |s.data|
    && forall q: Pid, w: nat ::
      PageOf(t.refs, t.data, q, w) == if q == p then LazyPage() else PageOf(s.refs, s.data, q, w)
  }

  /** The page table of p has gone, and only that. */
  ghost predicate TableGone(r: Refs, t: Refs, p: Pid) {
    forall x: Ref :: if x.p == p && (x.Leaf? || x.Node?) then x !in t else SameAt(r, t, x)
  }

  lemma RootPruned(r: Refs, t: Refs, u: Refs, p: Pid, n: nat)
    requires t == r - Leaves(p, 0, n) && NoLeaves(r, p, n) && Tree(r) && Pruned(t, u, p, Root, ENTRIES, true)
    ensures TableGone(r, u, p)
  {
    forall x: Ref ensures if x.p == p && (x.Leaf? || x.Node?) then x !in u else SameAt(r, u, x) {
      assert x in r ==> RefOk(r, x);
      assert SameAt(t, u, x) || x !in u;
    }
  }

  lemma DroppedAll(s: State, t: State, u: State, p: Pid, n: nat)
    requires Dropped(s, t, p, 0, n) && NoLeaves(s.refs, p, n) && SameMem(t, u)
    ensures Cleared(s, u, p)
  {
  }

  lemma TableLeft(r: Refs, p: Pid, n: nat)
    requires NoLeaves(r, p, n) && Node(p, Root) in r
    ensures NoLeaves(r - Leaves(p, 0, n), p, 0) && Node(p, Root) in r - Leaves(p, 0, n)
  {
  }

  /** uvmfree: all user pages of p and then its page table. */
  method UvmFree(m: Vm, p: Pid, n: nat)
    requires Node(p, Root) in m.s.refs && NoLeaves(m.s.refs, p, n) && NoFixed(m.fixed, p)
    modifies m`s
    ensures Cleared(old(m.s), m.s, p) && TableGone(old(m.s.refs), m.s.refs, p) && m.s.sz == old(m.s.sz)
  {
    TableLeft(m.s.refs, p, n);
    m.UvmUnmap(p, 0, n);
    ghost var t := m.s;
    Freewalk(m, p, Root);
    RootPruned(old(m.s.refs), t.refs, m.s.refs, p, n);
    DroppedAll(old(m.s), t, m.s, p, n);
  }

  /** kfree of a page that p keeps for itself. */
  method KfreeFresh(m: Vm, p: Pid, a: nat)
    requires Fresh(p, a) in m.s.refs
    modifies m`s
    ensures SameMem(old(m.s), m.s) && m.s.sz == old(m.s.sz) && m.s.refs == old(m.s.refs) - {Fresh(p, a)}
  {
    FreshIsPlain(m.s, p, a);
    m.Kfree(Fresh(p, a));
  }

  /** A slot of the process table that holds no memory. */
  ghost predicate Unused(s: State, p: Pid) {
    p in s.sz && s.sz[p] == 0 && forall x :: x in s.refs ==> x.p != p
  }

  /** A process with a page table and a trapframe, between system calls. */
  ghost predicate Settled(s: State, p: Pid, tf: nat) {
    && p in s.sz && Node(p, Root) in s.refs && Fresh(p, tf) in s.refs
    && NoLeaves(s.refs, p, PagesOf(s.sz[p]))
    && forall x :: x in s.refs && x.p == p ==> x.Leaf? || x.Node? || x == Fresh(p, tf)
  }

  /** References of processes other than p are as they were. */
  ghost predicate OthersKept(r: Refs, t: Refs, p: Pid) {
    forall x: Ref :: x.p != p ==> SameAt(r, t, x)
  }

  lemma AllGone(s: State, u: State, p: Pid, tf: nat)
    requires Settled(s, p, tf) && TableGone(s.refs - {Fresh(p, tf)}, u.refs, p)
    ensures OthersKept(s.refs, u.refs, p) && forall x :: x in u.refs ==> x.p != p
  {
    forall x: Ref ensures if x.p == p then x !in u.refs else SameAt(s.refs, u.refs, x) {
      assert SameAt(s.refs - {Fresh(p, tf)}, u.refs, x) || x !in u.refs;
    }
  }

  /** freeproc: whatever p had goes back; pages that others share stay theirs. */
  method FreeProc(m: Vm, p: Pid, tf: nat)
    requires Settled(m.s, p, tf) && FewFixed(m.fixed, p)
    modifies m
    ensures m.fixed == old(m.fixed) - {(p, TRAMPOLINE)} - {(p, TRAPFRAME)} && NoFixed(m.fixed, p)
    ensures Unused(m.s, p) && m.s.sz == old(m.s.sz)[p := 0]
    ensures Cleared(old(m.s), m.s, p) && OthersKept(old(m.s.refs), m.s.refs, p)
  {
    KfreeFresh(m, p, tf);
    ghost var t := m.s;
    m.fixed := m.fixed - {(p, TRAMPOLINE)};
    m.fixed := m.fixed - {(p, TRAPFRAME)};
    UvmFree(m, p, PagesOf(m.s.sz[p]));
    AllGone(old(m.s), m.s, p, tf);
    ClearedAfter(old(m.s), t, m.s, p);
    m.s := DoSetSize(m.s, p, 0);
  }

  lemma ClearedAfter(s: State, t: State, u: State, p: Pid)
    requires SameMem(s, t) && Cleared(t, u, p)
    ensures Cleared(s, u, p)
  {
  }

  /** Pages with the same references have the same counts, and the same pages are free. */
  lemma SameRefsSameFree(s: Quiet, t: Quiet)
    requires |t.data| == |s.data| && forall x: Ref :: x in s.refs <==> x in t.refs
    requires forall x: Ref :: x in s.refs ==> t.refs[x].ppn == s.refs[x].ppn
    ensures t.refcnt == s.refcnt && multiset(t.free) == multiset(s.free)
  {
    forall a | 0 <= a < |s.refcnt| ensures s.refcnt[a] == t.refcnt[a] {
      QuietCounts(s, a);
      QuietCounts(t, a);
      assert Owners(s.refs, a) == Owners(t.refs, a);
    }
    forall a: nat ensures multiset(t.free)[a] == multiset(s.free)[a] {
      DistinctOnce(s.free, a);
      DistinctOnce(t.free, a);
    }
  }

  // ---------------------------------------------------------------- allocproc

  /** The references of p while proc_pagetable is at work. */
  ghost predicate Infant(r: Refs, p: Pid, tf: nat) {
    && Node(p, Root) in r && Fresh(p, tf) in r
    && forall x :: x in r && x.p == p ==> x.Node? || x == Fresh(p, tf)
  }

  lemma InfantKept(r: Refs, t: Refs, p: Pid, tf: nat)
    requires Infant(r, p, tf) && Kept(r, t, p, {})
    ensures Infant(t, p, tf) && OthersKept(r, t, p)
  {
    assert SameAt(r, t, Node(p, Root)) && SameAt(r, t, Fresh(p, tf));
    forall x | x in t && x.p == p ensures x.Node? || x == Fresh(p, tf) {
      assert x.Node? || SameAt(r, t, x);
    }
    assert forall x: Ref :: x.p != p ==> SameAt(r, t, x);
  }

  lemma InfantBorn(r: Refs, p: Pid, tf: nat, a: nat)
    requires forall x :: x in r ==> x.p != p
    ensures var u := r[Fresh(p, tf) := Plain(tf)][Node(p, Root) := Plain(a)];
      Infant(u, p, tf) && OthersKept(r, u, p)
  {
  }

  lemma OthersKeptTrans(r: Refs, t: Refs, u: Refs, p: Pid)
    requires OthersKept(r, t, p) && OthersKept(t, u, p)
    ensures OthersKept(r, u, p)
  {
    forall x: Ref | x.p != p ensures SameAt(r, u, x) {
      assert SameAt(r, t, x) && SameAt(t, u, x);
    }
  }

  // ---- how much memory a new process needs

  predicate NodeIs(r: Refs, p: Pid, fixed: bool, q: Path) {
    Node(p, q) in r <==> q == Root || (fixed && q in TablesOf(TRAMPOLINE))
  }

  /** p has its root table and, if fixed, the tables for the two fixed mappings, but no other. */
  ghost predicate NodesOf(r: Refs, p: Pid, fixed: bool) {
    forall q: Path :: NodeIs(r, p, fixed, q)
  }

  /** Both fixed mappings are in the same table. */
  lemma FixedTables()
    ensures TablesOf(TRAPFRAME) == TablesOf(TRAMPOLINE) && Tables({TRAMPOLINE}) == TablesOf(TRAMPOLINE)
  {
    TablesNext({}, TRAMPOLINE);
    assert {} + {TRAMPOLINE} == {TRAMPOLINE} && Tables({}) == {};
  }

  lemma FixedShort(r: Refs, t: State, u: State, p: Pid)
    requires NodesOf(r, p, false)
    ensures Short(r, p, TRAMPOLINE) == 2
    ensures t.refs == r && Spent(t, u, p, {TRAMPOLINE}, 0) ==>
      NodesOf(u.refs, p, true) && Short(u.refs, p, TRAPFRAME) == 0 && |u.free| + 2 == |t.free|
  {
    FixedTables();
    assert NodeIs(r, p, false, Mid(Px2(TRAMPOLINE))) && NodeIs(r, p, false, LowPath(TRAMPOLINE));
    LackingOne(r, p, TRAMPOLINE);
    if t.refs == r && Spent(t, u, p, {TRAMPOLINE}, 0) {
      forall q: Path ensures NodeIs(u.refs, p, true, q) {
        assert NodeAt(r, u.refs, p, q in Tables({TRAMPOLINE}), q) && NodeIs(r, p, false, q);
      }
      assert NodeIs(u.refs, p, true, Mid(Px2(TRAPFRAME))) && NodeIs(u.refs, p, true, LowPath(TRAPFRAME));
    }
  }

  /** A walk that lacks nothing takes nothing. */
  lemma WalkedFixed(s: State, t: State, p: Pid)
    requires NodesOf(s.refs, p, true) && Spent(s, t, p, {TRAPFRAME}, 0)
    ensures NodesOf(t.refs, p, true) && |t.free| == |s.free|
  {
    FixedTables();
    TablesNext({}, TRAPFRAME);
    assert {} + {TRAPFRAME} == {TRAPFRAME} && Tables({}) == {};
    forall q: Path ensures NodeIs(t.refs, p, true, q) {
      assert NodeAt(s.refs, t.refs, p, q in Tables({TRAPFRAME}), q) && NodeIs(s.refs, p, true, q);
    }
    assert Lacking(s.refs, p, {TRAPFRAME}) == {} by {
      forall q: Path ensures q !in Lacking(s.refs, p, {TRAPFRAME}) { assert NodeIs(s.refs, p, true, q); }
    }
  }

  lemma RootOnly(r: Refs, p: Pid, tf: nat, a: nat)
    requires forall x :: x in r ==> x.p != p
    ensures NodesOf(r[Fresh(p, tf) := Plain(tf)][Node(p, Root) := Plain(a)], p, false)
  {
    var u := r[Fresh(p, tf) := Plain(tf)][Node(p, Root) := Plain(a)];
    forall q: Path ensures NodeIs(u, p, false, q) {}
  }

  /** allocproc's memory: a trapframe, and the page table with the tables for the two fixed
      mappings, that is four pages, and these mappings.  On failure there is nothing left of it. */
  method AllocProc(m: Vm, p: Pid) returns (r: Option<nat>)
    requires Unused(m.s, p) && NoFixed(m.fixed, p)
    modifies m
    ensures m.fixed == if r.Some? then WithFixed(old(m.fixed), p, r.value) else old(m.fixed)
    ensures SameMem(old(m.s), m.s) && m.s.sz == old(m.s.sz) && OthersKept(old(m.s.refs), m.s.refs, p)
    ensures r.Some? ==> Infant(m.s.refs, p, r.value) && NodesOf(m.s.refs, p, true) && |m.s.free| + 4 == |old(m.s.free)|
    ensures r == None ==> Unused(m.s, p)
    ensures r.Some? <==> 4 <= |old(m.s.free)|
  {
    r := NewTable(m, p);
    if r.Some? {
      r := MapFixed(m, p, r.value, old(m.s));
    }
  }

  lemma FreshGone(r: Refs, p: Pid, a: nat)
    requires Fresh(p, a) !in r
    ensures r[Fresh(p, a) := Plain(a)] - {Fresh(p, a)} == r && OthersKept(r, r, p)
  {
  }

  /** The trapframe and an empty page table, which take two pages. */
  method NewTable(m: Vm, p: Pid) returns (r: Option<nat>)
    requires Unused(m.s, p)
    modifies m`s
    ensures SameMem(old(m.s), m.s) && m.s.sz == old(m.s.sz) && OthersKept(old(m.s.refs), m.s.refs, p)
    ensures r.Some? ==> Infant(m.s.refs, p, r.value) && NodesOf(m.s.refs, p, false)
    ensures r.Some? ==> |m.s.free| + 2 == |old(m.s.free)|
    ensures (r == None ==> Unused(m.s, p)) && (r.Some? <==> 2 <= |old(m.s.free)|)
  {
    r := m.Kalloc(p);
    if r == None { return; }
    var tf := r.value;
    ghost var t := m.s;
    var a := UvmCreate(m, p);
    if a == None {
      FreshGone(old(m.s.refs), p, tf);
      KfreeFresh(m, p, tf);
      SameMemTrans(old(m.s), t, m.s);
      return None;
    }
    InfantBorn(old(m.s.refs), p, tf, a.value);
    RootOnly(old(m.s.refs), p, tf, a.value);
    SameMemTrans(old(m.s), t, m.s);
  }

  lemma RootAdded(r: Refs, p: Pid, a: nat)
    requires Fresh(p, a) !in r
    ensures (r[Fresh(p, a) := Plain(a)] - {Fresh(p, a)})[Node(p, Root) := Plain(a)] == r[Node(p, Root) := Plain(a)]
  {
  }

  /** uvmcreate: an empty page table. */
  method UvmCreate(m: Vm, p: Pid) returns (r: Option<nat>)
    requires Node(p, Root) !in m.s.refs
    modifies m`s
    ensures SameMem(old(m.s), m.s) && m.s.sz == old(m.s.sz)
    ensures (r == None ==> m.s == old(m.s)) && (r == None <==> old(m.s.free) == [])
    ensures r.Some? ==> m.s.refs == old(m.s.refs)[Node(p, Root) := Plain(r.value)] && |m.s.free| + 1 == |old(m.s.free)|
  {
    r := m.KallocZeroed(p);
    if r.Some? {
      ghost var t := m.s;
      RootAdded(old(m.s.refs), p, r.value);
      StepAddNode(m.s, p, r.value, Root);
      m.s := DoAddNode(m.s, p, r.value, Root);
      SameMemTrans(old(m.s), t, m.s);
    }
  }

  /** proc_pagetable's two mappages, and what happens when one of them fails. */
  method MapFixed(m: Vm, p: Pid, tf: nat, ghost s0: State) returns (r: Option<nat>)
    requires Infant(m.s.refs, p, tf) && p in m.s.sz && m.s.sz[p] == 0 && NodesOf(m.s.refs, p, false)
    requires SameMem(s0, m.s) && m.s.sz == s0.sz && OthersKept(s0.refs, m.s.refs, p) && NoFixed(m.fixed, p)
    modifies m
    ensures m.fixed == if r.Some? then WithFixed(old(m.fixed), p, tf) else old(m.fixed)
    ensures SameMem(s0, m.s) && m.s.sz == s0.sz && OthersKept(s0.refs, m.s.refs, p)
    ensures r.Some? ==>
      r.value == tf && Infant(m.s.refs, p, tf) && NodesOf(m.s.refs, p, true) && |m.s.free| + 2 == |old(m.s.free)|
    ensures r == None ==> Unused(m.s, p)
    ensures r.Some? <==> 2 <= |old(m.s.free)|
  {
    var ok := MapTwo(m, p, tf, s0);
    if ok {
      return Some(tf);
    }
    DropTable(m, p, tf, s0, old(m.fixed));
    r := None;
  }

  method MapTwo(m: Vm, p: Pid, tf: nat, ghost s0: State) returns (ok: bool)
    requires Infant(m.s.refs, p, tf) && NodesOf(m.s.refs, p, false)
    requires SameMem(s0, m.s) && OthersKept(s0.refs, m.s.refs, p)
    modifies m
    ensures Infant(m.s.refs, p, tf) && m.s.sz == old(m.s.sz)
    ensures SameMem(s0, m.s) && OthersKept(s0.refs, m.s.refs, p)
    ensures ok ==> NodesOf(m.s.refs, p, true) && |m.s.free| + 2 == |old(m.s.free)|
    ensures ok <==> 2 <= |old(m.s.free)|
    ensures if ok then m.fixed == WithFixed(old(m.fixed), p, tf)
      else m.fixed == old(m.fixed) || m.fixed == old(m.fixed)[(p, TRAMPOLINE) := Trampoline]
  {
    ok := WalkFixed(m, p, tf, TRAMPOLINE, s0);
    FixedShort(old(m.s.refs), old(m.s), m.s, p);
    if ok {
      m.fixed := m.fixed[(p, TRAMPOLINE) := Trampoline];
      ghost var w := m.s;
      ok := WalkFixed(m, p, tf, TRAPFRAME, s0);
      WalkedFixed(w, m.s, p);
    }
    if ok {
      m.fixed := m.fixed[(p, TRAPFRAME) := Trapframe(tf)];
    }
  }

  /** uvmunmap of the trampoline, which does no harm if it is not mapped, uvmfree, and the kfree
      of the trapframe. */
  method DropTable(m: Vm, p: Pid, tf: nat, ghost s0: State, ghost f0: map<(Pid, nat), Fixed>)
    requires Infant(m.s.refs, p, tf) && p in m.s.sz && m.s.sz[p] == 0
    requires NoFixed(f0, p) && (m.fixed == f0 || m.fixed == f0[(p, TRAMPOLINE) := Trampoline])
    requires SameMem(s0, m.s) && m.s.sz == s0.sz && OthersKept(s0.refs, m.s.refs, p)
    modifies m
    ensures m.fixed == f0
    ensures SameMem(s0, m.s) && m.s.sz == s0.sz && OthersKept(s0.refs, m.s.refs, p) && Unused(m.s, p)
  {
    FixedUndone(f0, p, tf);
    m.fixed := m.fixed - {(p, TRAMPOLINE)};
    ghost var t := m.s;
    UvmFree(m, p, 0);
    ghost var u := m.s;
    InfantUnseen(t, u, p, tf);
    SameMemTrans(s0, t, u);
    InfantGone(t, u, p, tf);
    KfreeFresh(m, p, tf);
    SameMemTrans(s0, u, m.s);
    OthersKeptTrans(s0.refs, t.refs, m.s.refs, p);
  }

  lemma InfantGone(s: State, t: State, p: Pid, tf: nat)
    requires Infant(s.refs, p, tf) && TableGone(s.refs, t.refs, p)
    ensures Fresh(p, tf) in t.refs && OthersKept(s.refs, t.refs - {Fresh(p, tf)}, p)
    ensures forall x :: x in t.refs - {Fresh(p, tf)} ==> x.p != p
  {
    forall x: Ref ensures if x.p == p && x != Fresh(p, tf) then x !in t.refs else SameAt(s.refs, t.refs, x) {
    }
    assert forall x: Ref :: x.p != p ==> SameAt(s.refs, t.refs, x);
  }

  lemma InfantUnseen(s: State, t: State, p: Pid, tf: nat)
    requires Infant(s.refs, p, tf) && Cleared(s, t, p)
    ensures SameMem(s, t)
  {
  }

  method WalkFixed(m: Vm, p: Pid, tf: nat, v: nat, ghost s0: State) returns (ok: bool)
    requires v < MAXVPN && Infant(m.s.refs, p, tf)
    requires SameMem(s0, m.s) && OthersKept(s0.refs, m.s.refs, p)
    modifies m`s
    ensures Infant(m.s.refs, p, tf) && m.s.sz == old(m.s.sz)
    ensures SameMem(s0, m.s) && OthersKept(s0.refs, m.s.refs, p)
    ensures (ok <==> Short(old(m.s.refs), p, v) <= |old(m.s.free)|) && (ok ==> Spent(old(m.s), m.s, p, {v}, 0))
  {
    ok := m.Walk(p, v, true);
    InfantKept(old(m.s.refs), m.s.refs, p, tf);
    OthersKeptTrans(s0.refs, old(m.s.refs), m.s.refs, p);
    SameMemTrans(s0, old(m.s), m.s);
  }

  // ---------------------------------------------------------------- kfork

  /** The child c is a copy of p: same size, same memory, all of it. */
  ghost predicate Twins(s: State, t: State, p: Pid, c: Pid) {
    && |t.data| == |s.data|
    && forall q: Pid, w: nat ::
      PageOf(t.refs, t.data, q, w) == if q == c then PageOf(s.refs, s.data, p, w) else PageOf(s.refs, s.data, q, w)
  }

  lemma CopiedTwins(s: State, t: State, u: State, p: Pid, c: Pid, n: nat)
    requires p != c && SameMem(s, t) && Copied(t, u, p, c, n) && NoLeaves(t.refs, p, n) && NoLeaves(t.refs, c, 0)
    ensures Twins(s, u, p, c)
  {
  }

  /** References of everybody but p and c, and of p except that pages may have become
      copy-on-write. */
  ghost predicate ForkKept(r: Refs, t: Refs, p: Pid, c: Pid) {
    && SamePages(r, t, p)
    && forall x: Ref :: x.p != c && !(x.Leaf? && x.p == p) ==> SameAt(r, t, x)
  }

  lemma ForkKeptFrom(r: Refs, t: Refs, u: Refs, p: Pid, c: Pid)
    requires p != c && OthersKept(r, t, c) && CopyState(t, u, p, c)
    ensures ForkKept(r, u, p, c)
  {
    assert forall v: nat :: SameAt(r, t, Leaf(p, v));
    forall x: Ref | x.p != c && !(x.Leaf? && x.p == p) ensures SameAt(r, u, x) {
      assert SameAt(r, t, x) && SameAt(t, u, x);
    }
  }

  lemma InfantCopied(r: Refs, t: Refs, p: Pid, c: Pid, tf: nat)
    requires p != c && Infant(r, c, tf) && CopyState(r, t, p, c)
    ensures Grown(t, c, tf)
  {
    assert SameAt(r, t, Node(c, Root)) && SameAt(r, t, Fresh(c, tf));
    forall x | x in t && x.p == c ensures x.Leaf? || x.Node? || x == Fresh(c, tf) {
      assert x.Leaf? || x.Node? || SameAt(r, t, x);
    }
  }

  lemma ParentLeaves(s: State, t: State, p: Pid, c: Pid, n: nat)
    requires p != c && OthersKept(s.refs, t.refs, c) && NoLeaves(s.refs, p, n)
    ensures NoLeaves(t.refs, p, n)
  {
    assert forall w: nat :: SameAt(s.refs, t.refs, Leaf(p, w));
  }

  /** A fork that failed: the child's slot is empty and every count is what it was. */
  lemma ForkLeaksNothing(s: Quiet, t: Quiet, p: Pid, c: Pid)
    requires p != c && |t.data| == |s.data| && ForkKept(s.refs, t.refs, p, c) && Unused(s, c) && Unused(t, c)
    ensures t.refcnt == s.refcnt && multiset(t.free) == multiset(s.free)
  {
    forall x: Ref ensures x in s.refs <==> x in t.refs
      ensures x in s.refs ==> t.refs[x].ppn == s.refs[x].ppn
    {
      if x.p != c && !(x.Leaf? && x.p == p) { assert SameAt(s.refs, t.refs, x); }
    }
    SameRefsSameFree(s, t);
  }

  /** What a fork of p takes: the child's trapframe, root table and the two tables of its fixed
      mappings, and those of the tables for p's mapped pages that are not among these. */
  ghost function ForkNeeds(r: Refs, p: Pid, n: nat): nat {
    4 + |Tables(MappedPages(r, p, n)) - TablesOf(TRAMPOLINE)|
  }

  lemma ForkNeedsAre(r: Refs, t: Refs, p: Pid, c: Pid, n: nat)
    requires p != c && NodesOf(t, c, true) && OthersKept(r, t, c)
    ensures ForkNeeds(r, p, n) == 4 + ShareNeeds(t, p, c, n)
  {
    SameMapped(r, t, p, c, n);
    MissingTables(t, c, Tables(MappedPages(t, p, n)));
    RootNotIn(MappedPages(t, p, n));
  }

  lemma SameMapped(r: Refs, t: Refs, p: Pid, c: Pid, n: nat)
    requires p != c && OthersKept(r, t, c)
    ensures MappedPages(t, p, n) == MappedPages(r, p, n)
  {
    forall v: nat ensures IsMapped(t, p, v) <==> IsMapped(r, p, v) { assert SameAt(r, t, Leaf(p, v)); }
  }

  lemma RootNotIn(vs: set<nat>)
    ensures Root !in Tables(vs)
  {
  }

  lemma MissingTables(t: Refs, c: Pid, qs: set<Path>)
    requires NodesOf(t, c, true)
    ensures Root !in qs ==> Missing(t, c, qs) == qs - TablesOf(TRAMPOLINE)
  {
    forall q: Path ensures Root !in qs ==> (q in Missing(t, c, qs) <==> q in qs - TablesOf(TRAMPOLINE)) {
      assert NodeIs(t, c, true, q);
    }
  }

  /** kfork: on success the child sees exactly the parent's memory, untouched pages included,
      and from then on each has its own.  It succeeds exactly when there is memory for the
      child's tables; on failure nobody notices and no page is lost. */
  method Fork(m: Vm, p: Pid, c: Pid) returns (r: Option<nat>)
    requires p != c && Ready(m.s, p) && NoLeaves(m.s.refs, p, PagesOf(m.s.sz[p])) && Unused(m.s, c)
    requires NoFixed(m.fixed, c)
    modifies m
    ensures m.fixed == if r.Some? then WithFixed(old(m.fixed), c, r.value) else old(m.fixed)
    ensures ForkKept(old(m.s.refs), m.s.refs, p, c)
    ensures r.Some? ==>
      Twins(old(m.s), m.s, p, c) && m.s.sz == old(m.s.sz)[c := old(m.s.sz)[p]] && Settled(m.s, c, r.value)
    ensures r.Some? ==> SharedUpTo(m.s.refs, p, c, PagesOf(old(m.s.sz)[p]))
    ensures r == None ==> SameMem(old(m.s), m.s) && m.s.sz == old(m.s.sz) && Unused(m.s, c)
    ensures r == None ==> m.s.refcnt == old(m.s.refcnt) && multiset(m.s.free) == multiset(old(m.s.free))
    ensures r.Some? <==> ForkNeeds(old(m.s.refs), p, PagesOf(old(m.s.sz)[p])) <= |old(m.s.free)|
  {
    r := AllocProc(m, c);
    var n := PagesOf(m.s.sz[p]);
    if r.Some? {
      ForkNeedsAre(old(m.s.refs), m.s.refs, p, c, n);
      r := ForkCopy(m, p, c, r.value, n, old(m.s), old(m.fixed));
    } else {
      ForkKeptSelf(old(m.s.refs), m.s.refs, p, c);
    }
    if r == None {
      ForkLeaksNothing(old(m.s), m.s, p, c);
    } else {
      m.s := DoSetSize(m.s, c, m.s.sz[p]);
    }
  }

  lemma ForkKeptSelf(r: Refs, t: Refs, p: Pid, c: Pid)
    requires p != c && OthersKept(r, t, c)
    ensures ForkKept(r, t, p, c)
  {
    assert forall v: nat :: SameAt(r, t, Leaf(p, v));
  }

  /** kfork from uvmcopy on. */
  method ForkCopy(m: Vm, p: Pid, c: Pid, tf: nat, n: nat, ghost s0: State, ghost f0: map<(Pid, nat), Fixed>)
    returns (r: Option<nat>)
    requires p != c && n <= TRAPFRAME && NoLeaves(s0.refs, p, n) && Infant(m.s.refs, c, tf)
    requires SameMem(s0, m.s) && m.s.sz == s0.sz && OthersKept(s0.refs, m.s.refs, c) && c in s0.sz && s0.sz[c] == 0
    requires NoFixed(f0, c) && m.fixed == WithFixed(f0, c, tf)
    modifies m
    ensures m.fixed == if r.Some? then WithFixed(f0, c, tf) else f0
    ensures ForkKept(s0.refs, m.s.refs, p, c) && m.s.sz == s0.sz
    ensures r.Some? ==> r.value == tf && Twins(s0, m.s, p, c) && Grown(m.s.refs, c, tf) && NoLeaves(m.s.refs, c, n)
    ensures r.Some? ==> SharedUpTo(m.s.refs, p, c, n)
    ensures r == None ==> SameMem(s0, m.s) && Unused(m.s, c)
    ensures r.Some? <==> ShareNeeds(old(m.s.refs), p, c, n) <= |old(m.s.free)|
  {
    var ok := ForkShare(m, p, c, tf, n, s0);
    if ok {
      return Some(tf);
    }
    ForkUndo(m, p, c, tf, s0, f0);
    r := None;
  }

  /** freeproc of a child that has got no memory. */
  method ForkUndo(m: Vm, p: Pid, c: Pid, tf: nat, ghost s0: State, ghost f0: map<(Pid, nat), Fixed>)
    requires p != c && Grown(m.s.refs, c, tf) && NoLeaves(m.s.refs, c, 0) && c in m.s.sz && m.s.sz[c] == 0
    requires SameMem(s0, m.s) && ForkKept(s0.refs, m.s.refs, p, c)
    requires NoFixed(f0, c) && m.fixed == WithFixed(f0, c, tf)
    modifies m
    ensures m.fixed == f0
    ensures SameMem(s0, m.s) && ForkKept(s0.refs, m.s.refs, p, c) && m.s.sz == old(m.s.sz) && Unused(m.s, c)
  {
    SettledEmpty(m.s, c, tf);
    FixedUndone(f0, c, tf);
    FreeProc(m, c, tf);
    ForkUndone(s0, old(m.s), m.s, p, c);
  }

  lemma SettledEmpty(s: State, c: Pid, tf: nat)
    requires Grown(s.refs, c, tf) && NoLeaves(s.refs, c, 0) && c in s.sz && s.sz[c] == 0
    ensures Settled(s, c, tf) && s.sz[c := 0] == s.sz
  {
  }

  /** A process with memory of its own: leaves, tables and a trapframe. */
  ghost predicate Grown(r: Refs, c: Pid, tf: nat) {
    && Node(c, Root) in r && Fresh(c, tf) in r
    && forall x :: x in r && x.p == c ==> x.Leaf? || x.Node? || x == Fresh(c, tf)
  }

  /** uvmcopy as kfork uses it. */
  method ForkShare(m: Vm, p: Pid, c: Pid, tf: nat, n: nat, ghost s0: State) returns (ok: bool)
    requires p != c && n <= TRAPFRAME && NoLeaves(s0.refs, p, n) && Infant(m.s.refs, c, tf)
    requires SameMem(s0, m.s) && m.s.sz == s0.sz && OthersKept(s0.refs, m.s.refs, c)
    modifies m`s
    ensures ForkKept(s0.refs, m.s.refs, p, c) && m.s.sz == s0.sz && Grown(m.s.refs, c, tf)
    ensures NoLeaves(m.s.refs, c, if ok then n else 0)
    ensures if ok then Twins(s0, m.s, p, c) && SharedUpTo(m.s.refs, p, c, n) else SameMem(s0, m.s)
    ensures ok <==> ShareNeeds(old(m.s.refs), p, c, n) <= |old(m.s.free)|
  {
    ParentLeaves(s0, m.s, p, c, n);
    ok := m.UvmCopy(p, c, n);
    ForkKeptFrom(s0.refs, old(m.s.refs), m.s.refs, p, c);
    InfantCopied(old(m.s.refs), m.s.refs, p, c, tf);
    if ok {
      CopiedTwins(s0, old(m.s), m.s, p, c, n);
    } else {
      SameMemTrans(s0, old(m.s), m.s);
    }
  }

  lemma ForkUndone(s: State, t: State, u: State, p: Pid, c: Pid)
    requires p != c && SameMem(s, t) && NoLeaves(t.refs, c, 0) && Cleared(t, u, c)
    requires ForkKept(s.refs, t.refs, p, c) && OthersKept(t.refs, u.refs, c)
    ensures SameMem(s, u) && ForkKept(s.refs, u.refs, p, c)
  {
    assert forall v: nat :: SameAt(t.refs, u.refs, Leaf(p, v));
    forall x: Ref | x.p != c && !(x.Leaf? && x.p == p) ensures SameAt(s.refs, u.refs, x) {
      assert SameAt(s.refs, t.refs, x) && SameAt(t.refs, u.refs, x);
    }
  }

  // ---------------------------------------------------------------- sbrk

  /** What sys_sbrk and growproc rely on. */
  ghost predicate Sized(s: State, p: Pid) {
    Ready(s, p) && NoLeaves(s.refs, p, PagesOf(s.sz[p]))
  }

  lemma GrownLazily(s: State, t: State, p: Pid, lo: nat, hi: nat)
    requires Growing(s, t, p, lo, hi, LazyPage()) && NoLeaves(s.refs, p, lo)
    ensures SameMem(s, t)
  {
  }

  lemma GrownReady(s: State, t: State, p: Pid, lo: nat, hi: nat, page: SpecPage)
    requires Growing(s, t, p, lo, hi, page) && forall a :: Stale(p, a) !in s.refs
    ensures forall a :: Stale(p, a) !in t.refs
  {
    assert forall a :: SameAt(s.refs, t.refs, Stale(p, a));
  }

  /** What n bytes more take: the pages, and the tables that they lack. */
  ghost function SbrkNeeds(s: State, p: Pid, n: nat): nat
    requires p in s.sz
  {
    PagesMonotone(s.sz[p], n);
    GrowNeeds(s.refs, p, PagesOf(s.sz[p]), PagesOf(s.sz[p] + n))
  }

  /** Pages [lo, hi) of p are mapped, and the user can write them without a fault. */
  ghost predicate Present(r: Refs, p: Pid, lo: nat, hi: nat) {
    forall w: nat :: lo <= w < hi ==>
      Leaf(p, w) in r && r[Leaf(p, w)].r && r[Leaf(p, w)].w && r[Leaf(p, w)].u && !r[Leaf(p, w)].cow
  }

  lemma GrownPresent(s: State, t: State, p: Pid, lo: nat, hi: nat)
    requires Growing(s, t, p, lo, hi, LazyPage())
    ensures Present(t.refs, p, lo, hi)
  {
    forall w: nat | lo <= w < hi
      ensures Leaf(p, w) in t.refs && t.refs[Leaf(p, w)].r && t.refs[Leaf(p, w)].w && t.refs[Leaf(p, w)].u
      ensures !t.refs[Leaf(p, w)].cow
    {
      assert MappedAs(t.refs, p, w, LazyPage());
    }
  }

  /** growproc with n > 0.  Nobody, not even p, can tell from memory that pages were added:
      memory that sbrk adds lazily reads the same. */
  method Grow(m: Vm, p: Pid, n: nat) returns (ok: bool)
    requires Sized(m.s, p) && PagesOf(m.s.sz[p] + n) <= TRAPFRAME
    modifies m`s
    ensures Sized(m.s, p) && SameMem(old(m.s), m.s)
    ensures m.s.sz == if ok then old(m.s.sz)[p := old(m.s.sz)[p] + n] else old(m.s.sz)
    ensures ok <==> SbrkNeeds(old(m.s), p, n) <= |old(m.s.free)|
    ensures ok ==> Present(m.s.refs, p, PagesOf(old(m.s.sz)[p]), PagesOf(old(m.s.sz)[p] + n))
  {
    var sz := m.s.sz[p];
    PagesMonotone(sz, n);
    ok := GrowTo(m, p, PagesOf(sz), PagesOf(sz + n));
    if ok {
      m.s := DoSetSize(m.s, p, sz + n);
    }
  }

  /** uvmalloc as growproc uses it. */
  method GrowTo(m: Vm, p: Pid, lo: nat, hi: nat) returns (ok: bool)
    requires lo <= hi <= TRAPFRAME && Tabled(m.s.refs, p) && NoLeaves(m.s.refs, p, lo)
    modifies m`s
    ensures SameMem(old(m.s), m.s) && m.s.sz == old(m.s.sz) && Tabled(m.s.refs, p)
    ensures NoLeaves(m.s.refs, p, if ok then hi else lo)
    ensures ok <==> GrowNeeds(old(m.s.refs), p, lo, hi) <= |old(m.s.free)|
    ensures ok ==> Present(m.s.refs, p, lo, hi)
  {
    ok := m.UvmAlloc(p, lo, hi, true, false);
    if ok {
      GrownPresent(old(m.s), m.s, p, lo, hi);
      GrownLazily(old(m.s), m.s, p, lo, hi);
      GrownReady(old(m.s), m.s, p, lo, hi, LazyPage());
    } else {
      KeptTabled(old(m.s.refs), m.s.refs, p, lo);
    }
  }

  /** p has a page table, and no page of it waits to be freed. */
  ghost predicate Tabled(r: Refs, p: Pid) {
    Node(p, Root) in r && forall a :: Stale(p, a) !in r
  }

  lemma KeptTabled(r: Refs, t: Refs, p: Pid, lo: nat)
    requires Tabled(r, p) && NoLeaves(r, p, lo) && Kept(r, t, p, {})
    ensures Tabled(t, p) && NoLeaves(t, p, lo)
  {
    assert SameAt(r, t, Node(p, Root));
    assert forall a :: SameAt(r, t, Stale(p, a));
    assert forall w: nat :: SameAt(r, t, Leaf(p, w));
  }

  lemma PagesMonotone(a: nat, n: nat)
    ensures PagesOf(a) <= PagesOf(a + n)
  {
  }

  lemma ShrunkSized(r: Refs, p: Pid, lo: nat, hi: nat)
    requires NoLeaves(r, p, hi)
    ensures NoLeaves(r - Leaves(p, lo, hi), p, lo)
  {
  }

  /** growproc with n < 0: the pages above the new size go.  Below zero the 64-bit size wraps
      around to something larger, and uvmdealloc does nothing. */
  method Shrink(m: Vm, p: Pid, n: nat)
    requires Sized(m.s, p) && n > 0
    modifies m`s
    ensures Sized(m.s, p)
    ensures var sz := old(m.s.sz)[p];
      if n <= sz then
        m.s.sz == old(m.s.sz)[p := sz - n] && Dropped(old(m.s), m.s, p, PagesOf(sz - n), PagesOf(sz))
      else m.s == old(m.s)
  {
    var sz := m.s.sz[p];
    if n <= sz {
      PagesMonotone(sz - n, n);
      ShrunkSized(m.s.refs, p, PagesOf(sz - n), PagesOf(sz));
      m.UvmUnmap(p, PagesOf(sz - n), PagesOf(sz));
      m.s := DoSetSize(m.s, p, sz - n);
    }
  }

  /** sys_sbrk: the old size, or failure.  Eager and lazy growth have the same meaning. */
  method Sbrk(m: Vm, p: Pid, n: int, eager: bool) returns (r: Option<nat>)
    requires Sized(m.s, p) && -0x8000_0000 <= n < 0x8000_0000 && (n > 0 ==> PagesOf(m.s.sz[p] + n) <= TRAPFRAME)
    modifies m`s
    ensures Sized(m.s, p) && (r.Some? ==> r.value == old(m.s.sz)[p])
    ensures r == None <==> n >= 0 && eager && |old(m.s.free)| < SbrkNeeds(old(m.s), p, n)
    ensures r == None ==> SameMem(old(m.s), m.s) && m.s.sz == old(m.s.sz)
    ensures r.Some? && n >= 0 ==> SameMem(old(m.s), m.s) && m.s.sz == old(m.s.sz)[p := old(m.s.sz)[p] + n]
    ensures r.Some? && n >= 0 && eager ==>
      forall w: nat :: PagesOf(old(m.s.sz)[p]) <= w < PagesOf(old(m.s.sz)[p] + n) ==>
        && Leaf(p, w) in m.s.refs && m.s.refs[Leaf(p, w)].r && m.s.refs[Leaf(p, w)].w && m.s.refs[Leaf(p, w)].u
        && !m.s.refs[Leaf(p, w)].cow
    ensures n < 0 ==> var sz := old(m.s.sz)[p];
      if -n <= sz then
        m.s.sz == old(m.s.sz)[p := sz + n] && Dropped(old(m.s), m.s, p, PagesOf(sz + n), PagesOf(sz))
      else m.s == old(m.s)
  {
    var addr := m.s.sz[p];
    if n < 0 {
      Shrink(m, p, -n);
    } else if eager {
      var ok := Grow(m, p, n);
      if !ok { return None; }
    } else {
      LazySized(m.s, p, n);
      m.s := DoSetSize(m.s, p, addr + n);
    }
    r := Some(addr);
  }

  lemma LazySized(s: State, p: Pid, n: nat)
    requires Sized(s, p) && PagesOf(s.sz[p] + n) <= TRAPFRAME
    ensures Sized(s.(sz := s.sz[p := s.sz[p] + n]), p)
  {
    PagesMonotone(s.sz[p], n);
  }
}
