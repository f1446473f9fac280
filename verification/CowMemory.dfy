/** kernel/vm.c and kernel/kalloc.c: physical pages with reference counts, the page tables
  of all processes, copy-on-write and lazy allocation, as an interleaved machine.

  refs lists every reference to a physical page: a leaf PTE, a page-table page of a process,
  a page a process has just obtained from kalloc (or keeps for itself, such as the
  trapframe), and a page it has taken out of its page table but not yet passed to kfree. */
module CowMemory {
  import opened Basics

  const PGSIZE: nat := 4096
  const ENTRIES: nat := 512
  /** MAXVA (2 to the 38th) in pages, and the two fixed mappings at the top. */
  const MAXVPN: nat := 67108864
  const TRAMPOLINE: nat := MAXVPN - 1
  const TRAPFRAME: nat := MAXVPN - 2

  type Pid = nat
  type Page = b: seq<nat> | |b| == PGSIZE witness seq(PGSIZE, _ => 0)

  datatype Pte = Pte(ppn: nat, r: bool, w: bool, x: bool, u: bool, cow: bool)

  /** The page-table pages of a process by the indices that lead to them. */
  datatype Path = Root | Mid(i2: nat) | Low(j2: nat, j1: nat)

  datatype Ref =
    | Leaf(p: Pid, v: nat)
    | Node(p: Pid, path: Path)
    | Fresh(p: Pid, a: nat)
    | Stale(p: Pid, a: nat)

  type Refs = map<Ref, Pte>

  /** limbo holds the pages whose count kfree has brought to 0 and that it has not yet put on the
      free list: it does these under two holds of the lock.  due holds the leaves that uvmcopy has
      mapped and not yet counted, each with the parent's leaf that it is a copy of. */
  datatype State = State(free: seq<nat>, limbo: set<nat>, refcnt: seq<int>, data: seq<Page>, refs: Refs, due: map<Ref,
                         Ref>, sz: map<Pid, nat>)

  function Filled(c: nat): Page {
    seq(PGSIZE, _ => c)
  }

  /** A reference that carries no permissions. */
  function Plain(a: nat): Pte {
    Pte(a, false, false, false, false, false)
  }

  // ---------------------------------------------------------------- Sv39 indices

  function Px2(v: nat): nat { v / 262144 }
  function Px1(v: nat): nat { v / 512 % 512 }
  function Px0(v: nat): nat { v % 512 }

  function LowPath(v: nat): Path { Low(Px2(v), Px1(v)) }

  /** The table that entry i of the table at q leads to; there is none below level 0. */
  function Child(q: Path, i: nat): Path {
    match q
    case Root => Mid(i)
    case Mid(j) => Low(j, i)
    case Low(_, _) => Root
  }

  /** q is a table below entries [0, n) of the table at path. */
  predicate Under(path: Path, n: nat, q: Path) {
    match path
    case Root => (q.Mid? && q.i2 < n) || (q.Low? && q.j2 < n)
    case Mid(i) => q.Low? && q.j2 == i && q.j1 < n
    case Low(_, _) => false
  }

  // ---------------------------------------------------------------- invariant

  ghost function Owners(refs: Refs, a: nat): set<Ref> {
    set x | x in refs && refs[x].ppn == a
  }

  /** The owners that are counted. */
  ghost function Holders(refs: Refs, due: set<Ref>, a: nat): set<Ref> {
    set x | x in refs && x !in due && refs[x].ppn == a
  }

  ghost predicate CountAt(refs: Refs, due: set<Ref>, refcnt: seq<int>, a: nat) {
    a < |refcnt| ==> refcnt[a] == |Holders(refs, due, a)|
  }

  /** kalloc.c's counts are exact, apart from the references that are still to be counted. */
  ghost predicate Counted(refs: Refs, due: set<Ref>, refcnt: seq<int>) {
    (forall x :: x in refs ==> refs[x].ppn < |refcnt|) && forall a: nat :: CountAt(refs, due, refcnt, a)
  }

  /** The free list holds the pages with count 0, each once, apart from those on their way. */
  ghost predicate FreeOk(free: seq<nat>, limbo: set<nat>, refcnt: seq<int>) {
    && (forall i, j :: 0 <= i < j < |free| ==> free[i] != free[j])
    && (forall a :: a in limbo ==> a < |refcnt| && refcnt[a] == 0)
    && (forall a :: a in free <==> 0 <= a < |refcnt| && refcnt[a] == 0 && a !in limbo)
  }

  /** References whose page nobody else may refer to: it is written through them. */
  predicate Sole(x: Ref, t: Pte) {
    x.Node? || x.Fresh? || t.w
  }

  ghost predicate Unshared(refs: Refs) {
    forall x, y :: x in refs && y in refs && Sole(x, refs[x]) && refs[x].ppn == refs[y].ppn ==> x == y
  }

  /** A leaf to be counted has the page of another leaf, which is counted. */
  predicate DueOk(refs: Refs, due: map<Ref, Ref>, x: Ref) {
    x in due ==>
      && x in refs && due[x] in refs && x.Leaf? && due[x].Leaf? && !refs[x].w && due[x] !in due
      && refs[due[x]].ppn == refs[x].ppn
  }

  /** x is counted and no leaf to be counted is a copy of it. */
  predicate Clear(due: map<Ref, Ref>, x: Ref) {
    x !in due && forall y :: y in due ==> due[y] != x
  }

  predicate RefOk(refs: Refs, x: Ref)
    requires x in refs
  {
    var t := refs[x];
    match x
    case Leaf(p, v) => v < TRAPFRAME && t.r && !(t.w && t.cow) && Node(p, LowPath(v)) in refs
    case Node(p, Root) => t == Plain(t.ppn)
    case Node(p, Mid(i)) => t == Plain(t.ppn) && i < ENTRIES && Node(p, Root) in refs
    case Node(p, Low(i, j)) => t == Plain(t.ppn) && j < ENTRIES && Node(p, Mid(i)) in refs
    case Fresh(p, a) => t == Plain(a)
    case Stale(p, a) => t == Plain(a)
  }

  ghost predicate Tree(refs: Refs) {
    forall x :: x in refs ==> RefOk(refs, x)
  }

  ghost predicate Inv(s: State) {
    && |s.data| == |s.refcnt|
    && Counted(s.refs, s.due.Keys, s.refcnt) && FreeOk(s.free, s.limbo, s.refcnt) && Unshared(s.refs) && Tree(s.refs)
    && forall x :: DueOk(s.refs, s.due, x)
  }

  ghost function Empty(): (s: State)
    ensures Inv(s)
  {
    State([], {}, [], [], map[], map[], map[])
  }

  type Consistent = s: State | Inv(s) ghost witness Empty()

  // ---------------------------------------------------------------- counting

  lemma HoldersInsert(refs: Refs, due: set<Ref>, x: Ref, t: Pte, a: nat)
    requires x !in refs && x !in due
    ensures Holders(refs[x := t], due, a) == if t.ppn == a then Holders(refs, due, a) + {x} else Holders(refs, due, a)
  {
  }

  lemma HoldersRemove(refs: Refs, due: set<Ref>, x: Ref, a: nat)
    requires x in refs && x !in due
    ensures Holders(refs - {x}, due, a) ==
      if refs[x].ppn == a then Holders(refs, due, a) - {x} else Holders(refs, due, a)
    ensures refs[x].ppn == a ==> x in Holders(refs, due, a)
  {
  }

  lemma CountedInsert(refs: Refs, due: set<Ref>, refcnt: seq<int>, x: Ref, t: Pte)
    requires Counted(refs, due, refcnt) && x !in refs && x !in due && t.ppn < |refcnt|
    ensures Counted(refs[x := t], due, refcnt[t.ppn := refcnt[t.ppn] + 1])
  {
    var u, c := refs[x := t], refcnt[t.ppn := refcnt[t.ppn] + 1];
    forall a: nat ensures CountAt(u, due, c, a) {
      assert CountAt(refs, due, refcnt, a);
      HoldersInsert(refs, due, x, t, a);
    }
  }

  lemma CountedRemove(refs: Refs, due: set<Ref>, refcnt: seq<int>, x: Ref)
    requires Counted(refs, due, refcnt) && x in refs && x !in due
    ensures refcnt[refs[x].ppn] > 0
    ensures Counted(refs - {x}, due, refcnt[refs[x].ppn := refcnt[refs[x].ppn] - 1])
  {
    var b := refs[x].ppn;
    HoldersRemove(refs, due, x, b);
    assert CountAt(refs, due, refcnt, b);
    var u, c := refs - {x}, refcnt[b := refcnt[b] - 1];
    forall a: nat ensures CountAt(u, due, c, a) {
      assert CountAt(refs, due, refcnt, a);
      HoldersRemove(refs, due, x, a);
    }
  }

  /** A new reference that is not counted yet. */
  lemma CountedLater(refs: Refs, due: set<Ref>, refcnt: seq<int>, x: Ref, t: Pte)
    requires Counted(refs, due, refcnt) && x !in refs && t.ppn < |refcnt|
    ensures Counted(refs[x := t], due + {x}, refcnt)
  {
    var u, d := refs[x := t], due + {x};
    forall a: nat ensures CountAt(u, d, refcnt, a) {
      assert CountAt(refs, due, refcnt, a);
      assert Holders(u, d, a) == Holders(refs, due, a);
    }
  }

  /** It is counted. */
  lemma CountedNow(refs: Refs, due: set<Ref>, refcnt: seq<int>, x: Ref)
    requires Counted(refs, due, refcnt) && x in refs && x in due
    ensures Counted(refs, due - {x}, refcnt[refs[x].ppn := refcnt[refs[x].ppn] + 1])
  {
    var b := refs[x].ppn;
    var d, c := due - {x}, refcnt[b := refcnt[b] + 1];
    forall a: nat ensures CountAt(refs, d, c, a) {
      assert CountAt(refs, due, refcnt, a);
      assert Holders(refs, d, a) == if a == b then Holders(refs, due, a) + {x} else Holders(refs, due, a);
    }
  }

  /** A reference that changes its holder is still one reference. */
  lemma CountedMove(refs: Refs, due: set<Ref>, refcnt: seq<int>, x: Ref, y: Ref, t: Pte)
    requires Counted(refs, due, refcnt) && x in refs && x !in due && y !in due && (y == x || y !in refs)
    requires t.ppn == refs[x].ppn
    ensures Counted((refs - {x})[y := t], due, refcnt)
  {
    CountedRemove(refs, due, refcnt, x);
    var c := refcnt[t.ppn := refcnt[t.ppn] - 1];
    CountedInsert(refs - {x}, due, c, y, t);
    assert c[t.ppn := c[t.ppn] + 1] == refcnt;
  }

  /** And so is one that changes its permissions. */
  lemma CountedAs(refs: Refs, due: set<Ref>, refcnt: seq<int>, x: Ref, t: Pte)
    requires Counted(refs, due, refcnt) && x in refs && t.ppn == refs[x].ppn
    ensures Counted(refs[x := t], due, refcnt)
  {
    var u := refs[x := t];
    forall a: nat ensures CountAt(u, due, refcnt, a) {
      assert CountAt(refs, due, refcnt, a);
      assert Holders(u, due, a) == Holders(refs, due, a);
    }
  }

  lemma UnsharedInsert(refs: Refs, x: Ref, t: Pte)
    requires Unshared(refs) && x !in refs
    requires forall y :: y in refs && refs[y].ppn == t.ppn ==> !Sole(x, t) && !Sole(y, refs[y])
    ensures Unshared(refs[x := t])
  {
  }

  lemma TreeInsert(refs: Refs, x: Ref, t: Pte)
    requires Tree(refs) && RefOk(refs[x := t], x)
    ensures Tree(refs[x := t])
  {
    var u := refs[x := t];
    forall y | y in u ensures RefOk(u, y) {
      assert y != x ==> RefOk(refs, y);
    }
  }

  /** A page-table page goes only after everything below it. */
  predicate Childless(refs: Refs, x: Ref) {
    x.Node? ==> forall y :: y in refs && y.p == x.p ==>
      match y
      case Leaf(_, v) => x.path != LowPath(v)
      case Node(_, Root) => true
      case Node(_, Mid(_)) => x.path != Root
      case Node(_, Low(i, _)) => x.path != Mid(i)
      case _ => true
  }

  lemma TreeRemove(refs: Refs, x: Ref)
    requires Tree(refs) && Childless(refs, x)
    ensures Tree(refs - {x})
  {
    var u := refs - {x};
    forall y | y in u ensures RefOk(u, y) {
      assert RefOk(refs, y);
    }
  }

  // ---------------------------------------------------------------- primitive steps

  datatype Action =
    | Kalloc(p: Pid)
    | Drop(x: Ref)
    | Push(a: nat)
    | ZeroFill(p: Pid, a: nat)
    | CopyInto(p: Pid, v: nat, a: nat)
    | AddNode(p: Pid, a: nat, path: Path)
    | MapPage(p: Pid, v: nat, a: nat, perm: Pte)
    | MarkCow(p: Pid, v: nat)
    | Attach(p: Pid, c: Pid, v: nat)
    | Count(x: Ref)
    | CowSwap(p: Pid, v: nat, a: nat)
    | Protect(p: Pid, v: nat)
    | Write(p: Pid, v: nat, off: nat, b: nat)
    | Fill(p: Pid, v: nat, off: nat, b: nat)
    | SetSize(p: Pid, n: nat)

  predicate CanKalloc(s: State, p: Pid) {
    s.free != [] && s.free[0] < |s.refcnt| == |s.data| && Fresh(p, s.free[0]) !in s.refs
  }

  /** kalloc: the first free page, filled with junk. */
  function DoKalloc(s: State, p: Pid): State
    requires CanKalloc(s, p)
  {
    var a := s.free[0];
    s.(free := s.free[1..], refcnt := s.refcnt[a := s.refcnt[a] + 1], data := s.data[a := Filled(5)],
       refs := s.refs[Fresh(p, a) := Plain(a)])
  }

  predicate CanKfree(s: State, x: Ref) {
    x in s.refs && s.refs[x].ppn < |s.refcnt| == |s.data| && Childless(s.refs, x) && Clear(s.due, x)
  }

  /** The first half of kfree, for the page behind a reference, which goes away with it (uvmunmap
      clears the PTE, freewalk zeroed the parent entry, a local pointer goes out of use).  The
      page is to be freed only when its count reaches 0; it is then filled with junk. */
  function DoDrop(s: State, x: Ref): State
    requires CanKfree(s, x)
  {
    var a := s.refs[x].ppn;
    var t := s.(refcnt := s.refcnt[a := s.refcnt[a] - 1], refs := s.refs - {x});
    if t.refcnt[a] == 0 then t.(limbo := s.limbo + {a}, data := s.data[a := Filled(1)]) else t
  }

  /** The second half. */
  function DoPush(s: State, a: nat): State {
    s.(free := [a] + s.free, limbo := s.limbo - {a})
  }

  /** kfree without anybody coming between. */
  function DoKfree(s: State, x: Ref): State
    requires CanKfree(s, x)
  {
    var a := s.refs[x].ppn;
    if s.refcnt[a] == 1 then DoPush(DoDrop(s, x), a) else DoDrop(s, x)
  }

  predicate CanZeroFill(s: State, p: Pid, a: nat) {
    Fresh(p, a) in s.refs && a < |s.data|
  }

  function DoZeroFill(s: State, a: nat): State
    requires a < |s.data|
  {
    s.(data := s.data[a := Filled(0)])
  }

  predicate CanCopyInto(s: State, p: Pid, v: nat, a: nat) {
    Fresh(p, a) in s.refs && a < |s.data| && Leaf(p, v) in s.refs && s.refs[Leaf(p, v)].ppn < |s.data|
  }

  function DoCopyInto(s: State, p: Pid, v: nat, a: nat): State
    requires CanCopyInto(s, p, v, a)
  {
    s.(data := s.data[a := s.data[s.refs[Leaf(p, v)].ppn]])
  }

  /** walk writes the entry for a new page-table page, which it has cleared. */
  predicate CanAddNode(s: State, p: Pid, a: nat, path: Path) {
    Fresh(p, a) in s.refs && a < |s.data| && s.data[a] == Filled(0) && Node(p, path) !in s.refs &&
    match path
    case Root => true
    case Mid(i) => i < ENTRIES && Node(p, Root) in s.refs
    case Low(i, j) => j < ENTRIES && Node(p, Mid(i)) in s.refs
  }

  function DoAddNode(s: State, p: Pid, a: nat, path: Path): State {
    s.(refs := (s.refs - {Fresh(p, a)})[Node(p, path) := Plain(a)])
  }

  /** mappages of a cleared page.  A valid PTE there would be the panic "remap". */
  predicate CanMapPage(s: State, p: Pid, v: nat, a: nat, perm: Pte) {
    && Fresh(p, a) in s.refs && a < |s.data| && s.data[a] == Filled(0) && perm.ppn == a && perm.r && !perm.cow
    && v < TRAPFRAME && Leaf(p, v) !in s.refs && Node(p, LowPath(v)) in s.refs
  }

  function DoMapPage(s: State, p: Pid, v: nat, a: nat, perm: Pte): State {
    s.(refs := (s.refs - {Fresh(p, a)})[Leaf(p, v) := perm])
  }

  predicate CanMarkCow(s: State, p: Pid, v: nat) {
    Leaf(p, v) in s.refs && s.refs[Leaf(p, v)].w
  }

  function DoMarkCow(s: State, p: Pid, v: nat): State
    requires Leaf(p, v) in s.refs
  {
    s.(refs := s.refs[Leaf(p, v) := s.refs[Leaf(p, v)].(w := false, cow := true)])
  }

  predicate CanShare(s: State, p: Pid, c: Pid, v: nat) {
    && p != c && Leaf(p, v) in s.refs && !s.refs[Leaf(p, v)].w && s.refs[Leaf(p, v)].ppn < |s.refcnt|
    && Leaf(p, v) !in s.due && Leaf(c, v) !in s.refs && Node(c, LowPath(v)) in s.refs
  }

  /** uvmcopy's mappages of the parent's page into the child. */
  function DoAttach(s: State, p: Pid, c: Pid, v: nat): State
    requires CanShare(s, p, c, v)
  {
    s.(refs := s.refs[Leaf(c, v) := s.refs[Leaf(p, v)]], due := s.due[Leaf(c, v) := Leaf(p, v)])
  }

  predicate CanCount(s: State, x: Ref) {
    x in s.due && x in s.refs && s.refs[x].ppn < |s.refcnt|
  }

  /** The inc_refcnt that follows. */
  function DoCount(s: State, x: Ref): State
    requires CanCount(s, x)
  {
    var a := s.refs[x].ppn;
    s.(refcnt := s.refcnt[a := s.refcnt[a] + 1], due := s.due - {x})
  }

  /** Both without anybody coming between. */
  function DoShare(s: State, p: Pid, c: Pid, v: nat): State
    requires CanShare(s, p, c, v)
  {
    DoCount(DoAttach(s, p, c, v), Leaf(c, v))
  }

  predicate CanCowSwap(s: State, p: Pid, v: nat, a: nat) {
    && Leaf(p, v) in s.refs && s.refs[Leaf(p, v)].cow && s.refs[Leaf(p, v)].ppn < |s.data|
    && Fresh(p, a) in s.refs && a < |s.data| && s.data[a] == s.data[s.refs[Leaf(p, v)].ppn]
    && Stale(p, s.refs[Leaf(p, v)].ppn) !in s.refs && Clear(s.due, Leaf(p, v))
  }

  /** vmfault points the PTE at the copy; the old page is left to be passed to kfree. */
  function DoCowSwap(s: State, p: Pid, v: nat, a: nat): State
    requires CanCowSwap(s, p, v, a)
  {
    var t := s.refs[Leaf(p, v)];
    var out := (s.refs - {Leaf(p, v)})[Stale(p, t.ppn) := Plain(t.ppn)];
    s.(refs := (out - {Fresh(p, a)})[Leaf(p, v) := t.(ppn := a, w := true, cow := false)])
  }

  predicate CanProtect(s: State, p: Pid, v: nat) {
    Leaf(p, v) in s.refs
  }

  function DoProtect(s: State, p: Pid, v: nat): State
    requires Leaf(p, v) in s.refs
  {
    s.(refs := s.refs[Leaf(p, v) := s.refs[Leaf(p, v)].(u := false)])
  }

  predicate CanWrite(s: State, p: Pid, v: nat, off: nat) {
    Leaf(p, v) in s.refs && s.refs[Leaf(p, v)].w && s.refs[Leaf(p, v)].ppn < |s.data| && off < PGSIZE
  }

  function DoWrite(s: State, p: Pid, v: nat, off: nat, b: nat): State
    requires CanWrite(s, p, v, off)
  {
    var a := s.refs[Leaf(p, v)].ppn;
    s.(data := s.data[a := s.data[a][off := b]])
  }

  /** exec's loadseg writes into a page that uvmalloc has just mapped, whatever its permissions. */
  predicate CanFill(s: State, p: Pid, v: nat, off: nat) {
    && Leaf(p, v) in s.refs && s.refs[Leaf(p, v)].ppn < |s.data| == |s.refcnt| && off < PGSIZE
    && s.refcnt[s.refs[Leaf(p, v)].ppn] == 1 && Clear(s.due, Leaf(p, v))
  }

  function DoFill(s: State, p: Pid, v: nat, off: nat, b: nat): State
    requires CanFill(s, p, v, off)
  {
    var a := s.refs[Leaf(p, v)].ppn;
    s.(data := s.data[a := s.data[a][off := b]])
  }

  function DoSetSize(s: State, p: Pid, n: nat): State {
    s.(sz := s.sz[p := n])
  }

  // ---------------------------------------------------------------- the steps keep the invariant

  lemma FreePop(free: seq<nat>, limbo: set<nat>, refcnt: seq<int>)
    requires FreeOk(free, limbo, refcnt) && free != []
    ensures free[0] < |refcnt| && refcnt[free[0]] == 0
    ensures FreeOk(free[1..], limbo, refcnt[free[0] := 1])
  {
    assert free[0] in free;
    assert forall a :: a in free <==> a == free[0] || a in free[1..];
  }

  lemma Unowned(s: Consistent, a: nat)
    requires a < |s.refcnt| && s.refcnt[a] == 0
    ensures forall y :: y in s.refs ==> s.refs[y].ppn != a
  {
    assert CountAt(s.refs, s.due.Keys, s.refcnt, a);
    forall y | y in s.refs ensures s.refs[y].ppn != a {
      assert DueOk(s.refs, s.due, y);
      assert (if y in s.due then s.due[y] else y) !in Holders(s.refs, s.due.Keys, a);
    }
  }

  /** The leaves to be counted, and those that they are copies of, are as they were. */
  lemma DueKept(r: Refs, u: Refs, due: map<Ref, Ref>)
    requires forall x :: DueOk(r, due, x)
    requires forall x :: x in r && !Clear(due, x) ==> x in u && u[x].ppn == r[x].ppn && (u[x].w ==> r[x].w)
    ensures forall x :: DueOk(u, due, x)
  {
    forall x ensures DueOk(u, due, x) {
      assert DueOk(r, due, x);
      assert x in due ==> !Clear(due, x) && !Clear(due, due[x]);
    }
  }

  lemma KallocInv(s: Consistent, p: Pid)
    requires CanKalloc(s, p)
    ensures Inv(DoKalloc(s, p))
  {
    var a := s.free[0];
    FreePop(s.free, s.limbo, s.refcnt);
    Unowned(s, a);
    assert DueOk(s.refs, s.due, Fresh(p, a));
    CountedInsert(s.refs, s.due.Keys, s.refcnt, Fresh(p, a), Plain(a));
    UnsharedInsert(s.refs, Fresh(p, a), Plain(a));
    TreeInsert(s.refs, Fresh(p, a), Plain(a));
    DueKept(s.refs, s.refs[Fresh(p, a) := Plain(a)], s.due);
  }

  lemma DropInv(s: Consistent, x: Ref)
    requires CanKfree(s, x)
    ensures Inv(DoDrop(s, x)) && s.refs[x].ppn !in s.limbo
    ensures s.refs[x].ppn in DoDrop(s, x).limbo <==> s.refcnt[s.refs[x].ppn] == 1
  {
    CountedRemove(s.refs, s.due.Keys, s.refcnt, x);
    TreeRemove(s.refs, x);
    DueKept(s.refs, s.refs - {x}, s.due);
    var a := s.refs[x].ppn;
    assert a !in s.free;
  }

  lemma PushInv(s: Consistent, a: nat)
    requires a in s.limbo
    ensures Inv(DoPush(s, a))
  {
    assert a !in s.free;
  }

  /** A page passed from one reference to another of the same process. */
  lemma MoveInv(s: Consistent, x: Ref, y: Ref, t: Pte)
    requires x in s.refs && y !in s.refs && t.ppn == s.refs[x].ppn && (Sole(y, t) ==> Sole(x, s.refs[x]))
    requires Childless(s.refs, x) && Clear(s.due, x) && RefOk((s.refs - {x})[y := t], y)
    ensures Inv(s.(refs := (s.refs - {x})[y := t]))
  {
    var u := (s.refs - {x})[y := t];
    assert DueOk(s.refs, s.due, y);
    CountedMove(s.refs, s.due.Keys, s.refcnt, x, y, t);
    assert Unshared(u);
    TreeRemove(s.refs, x);
    TreeInsert(s.refs - {x}, y, t);
    DueKept(s.refs, u, s.due);
  }

  /** A reference with other permissions. */
  lemma ChangeInv(s: Consistent, x: Ref, t: Pte)
    requires x in s.refs && t.ppn == s.refs[x].ppn && (t.w ==> s.refs[x].w) && RefOk(s.refs[x := t], x)
    ensures Inv(s.(refs := s.refs[x := t]))
  {
    CountedAs(s.refs, s.due.Keys, s.refcnt, x, t);
    TreeInsert(s.refs, x, t);
    DueKept(s.refs, s.refs[x := t], s.due);
  }

  /** Only leaves are counted late. */
  lemma NotDue(s: Consistent, x: Ref)
    requires !x.Leaf?
    ensures Clear(s.due, x)
  {
    assert DueOk(s.refs, s.due, x);
    forall y | y in s.due ensures s.due[y] != x { assert DueOk(s.refs, s.due, y); }
  }

  lemma CowSwapInv(s: Consistent, p: Pid, v: nat, a: nat)
    requires CanCowSwap(s, p, v, a)
    ensures Inv(DoCowSwap(s, p, v, a))
  {
    var t := s.refs[Leaf(p, v)];
    assert RefOk(s.refs, Leaf(p, v)) && RefOk(s.refs, Fresh(p, a));
    NotDue(s, Fresh(p, a));
    MoveInv(s, Leaf(p, v), Stale(p, t.ppn), Plain(t.ppn));
    var out := s.(refs := (s.refs - {Leaf(p, v)})[Stale(p, t.ppn) := Plain(t.ppn)]);
    MoveInv(out, Fresh(p, a), Leaf(p, v), t.(ppn := a, w := true, cow := false));
  }

  lemma AttachInv(s: Consistent, p: Pid, c: Pid, v: nat)
    requires CanShare(s, p, c, v)
    ensures Inv(DoAttach(s, p, c, v))
  {
    var t, x, y, u := s.refs[Leaf(p, v)], Leaf(c, v), Leaf(p, v), DoAttach(s, p, c, v);
    assert RefOk(s.refs, y) && DueOk(s.refs, s.due, x);
    CountedLater(s.refs, s.due.Keys, s.refcnt, x, t);
    assert u.due.Keys == s.due.Keys + {x};
    UnsharedInsert(s.refs, x, t);
    TreeInsert(s.refs, x, t);
    forall z ensures DueOk(u.refs, u.due, z) { assert DueOk(s.refs, s.due, z); }
  }

  lemma CountInv(s: Consistent, x: Ref)
    requires CanCount(s, x)
    ensures Inv(DoCount(s, x))
  {
    var u := DoCount(s, x);
    CountedNow(s.refs, s.due.Keys, s.refcnt, x);
    assert u.due.Keys == s.due.Keys - {x};
    assert DueOk(s.refs, s.due, x);
    CountedFree(s, s.refs[x].ppn, s.due[x]);
    forall z ensures DueOk(u.refs, u.due, z) { assert DueOk(s.refs, s.due, z); }
  }

  lemma CountedFree(s: Consistent, a: nat, x: Ref)
    requires x in s.refs && s.refs[x].ppn == a && x !in s.due
    ensures a < |s.refcnt| && FreeOk(s.free, s.limbo, s.refcnt[a := s.refcnt[a] + 1])
  {
    CountedRemove(s.refs, s.due.Keys, s.refcnt, x);
  }

  // ---------------------------------------------------------------- what processes see

  /** A page as its process knows it.  w says that it may be written, be it right away or
      after a copy. */
  datatype SpecPage = SpecPage(bytes: Page, r: bool, w: bool, x: bool, u: bool)

  function LazyPage(): SpecPage {
    SpecPage(Filled(0), true, true, false, true)
  }

  function PageOf(refs: Refs, data: seq<Page>, p: Pid, v: nat): SpecPage {
    if Leaf(p, v) in refs && refs[Leaf(p, v)].ppn < |data| then
      var t := refs[Leaf(p, v)];
      SpecPage(data[t.ppn], t.r, t.w || t.cow, t.x, t.u)
    else LazyPage()
  }

  /** Nobody's memory has changed. */
  ghost predicate SameMem(s: State, t: State) {
    && |t.data| == |s.data|
    && forall q: Pid, w: nat :: PageOf(t.refs, t.data, q, w) == PageOf(s.refs, s.data, q, w)
  }

  /** Page v of process p is now this page; everything else is as it was. */
  ghost predicate OnePage(s: State, t: State, p: Pid, v: nat, page: SpecPage) {
    && |t.data| == |s.data| && PageOf(t.refs, t.data, p, v) == page
    && forall q: Pid, w: nat :: q != p || w != v ==>
      PageOf(t.refs, t.data, q, w) == PageOf(s.refs, s.data, q, w)
  }

  /** Writing a page through a reference that owns it alone changes nobody else's memory. */
  lemma SoleWrite(s: Consistent, x: Ref, b: Page)
    requires x in s.refs && Sole(x, s.refs[x])
    ensures s.refs[x].ppn < |s.data|
    ensures forall p: Pid, v: nat :: Leaf(p, v) != x ==>
      PageOf(s.refs, s.data[s.refs[x].ppn := b], p, v) == PageOf(s.refs, s.data, p, v)
  {
  }

  /** Setting a leaf concerns one page of one process. */
  lemma LeafUpdate(refs: Refs, data: seq<Page>, p: Pid, v: nat, t: Pte)
    ensures forall q: Pid, w: nat :: q != p || w != v ==>
      PageOf(refs[Leaf(p, v) := t], data, q, w) == PageOf(refs, data, q, w)
  {
  }

  lemma OtherUpdate(refs: Refs, data: seq<Page>, x: Ref, t: Pte)
    requires !x.Leaf?
    ensures forall q: Pid, w: nat :: PageOf(refs[x := t], data, q, w) == PageOf(refs, data, q, w)
    ensures forall q: Pid, w: nat :: PageOf(refs - {x}, data, q, w) == PageOf(refs, data, q, w)
  {
  }

  lemma StepKalloc(s: Consistent, p: Pid)
    requires CanKalloc(s, p)
    ensures Inv(DoKalloc(s, p)) && SameMem(s, DoKalloc(s, p))
  {
    KallocInv(s, p);
    FreePop(s.free, s.limbo, s.refcnt);
    Unowned(s, s.free[0]);
  }

  lemma DropData(s: Consistent, x: Ref, y: Ref)
    requires CanKfree(s, x) && y in s.refs && y != x
    ensures s.refs[y].ppn < |s.data| && DoDrop(s, x).data[s.refs[y].ppn] == s.data[s.refs[y].ppn]
  {
    var t := DoDrop(s, x);
    DropInv(s, x);
    if s.refs[y].ppn == s.refs[x].ppn {
      assert DueOk(s.refs, s.due, y);
      CountedRemove(t.refs, t.due.Keys, t.refcnt, if y in s.due then s.due[y] else y);
    }
  }

  /** kfree of a leaf's page drops it from its process; nobody else notices. */
  lemma StepDrop(s: Consistent, x: Ref)
    requires CanKfree(s, x)
    ensures Inv(DoDrop(s, x))
    ensures if x.Leaf? then OnePage(s, DoDrop(s, x), x.p, x.v, LazyPage()) else SameMem(s, DoDrop(s, x))
  {
    var t := DoDrop(s, x);
    DropInv(s, x);
    forall p: Pid, v: nat | Leaf(p, v) != x ensures PageOf(t.refs, t.data, p, v) == PageOf(s.refs, s.data, p, v) {
      if Leaf(p, v) in s.refs {
        DropData(s, x, Leaf(p, v));
      }
    }
  }

  lemma StepKfree(s: Consistent, x: Ref)
    requires CanKfree(s, x)
    ensures Inv(DoKfree(s, x)) && DoKfree(s, x).limbo == s.limbo
    ensures if x.Leaf? then OnePage(s, DoKfree(s, x), x.p, x.v, LazyPage()) else SameMem(s, DoKfree(s, x))
  {
    StepDrop(s, x);
    DropInv(s, x);
    if s.refcnt[s.refs[x].ppn] == 1 { PushInv(DoDrop(s, x), s.refs[x].ppn); }
  }

  lemma StepFreshWrite(s: Consistent, p: Pid, a: nat, b: Page)
    requires Fresh(p, a) in s.refs
    ensures a < |s.data| && Inv(s.(data := s.data[a := b])) && SameMem(s, s.(data := s.data[a := b]))
  {
    assert RefOk(s.refs, Fresh(p, a));
    SoleWrite(s, Fresh(p, a), b);
  }

  lemma StepAddNode(s: Consistent, p: Pid, a: nat, path: Path)
    requires CanAddNode(s, p, a, path)
    ensures Inv(DoAddNode(s, p, a, path)) && SameMem(s, DoAddNode(s, p, a, path))
  {
    assert RefOk(s.refs, Fresh(p, a));
    NotDue(s, Fresh(p, a));
    MoveInv(s, Fresh(p, a), Node(p, path), Plain(a));
    OtherUpdate(s.refs, s.data, Fresh(p, a), Plain(a));
    OtherUpdate(s.refs - {Fresh(p, a)}, s.data, Node(p, path), Plain(a));
  }

  lemma StepMapPage(s: Consistent, p: Pid, v: nat, a: nat, t: Pte)
    requires CanMapPage(s, p, v, a, t)
    ensures Inv(DoMapPage(s, p, v, a, t))
    ensures OnePage(s, DoMapPage(s, p, v, a, t), p, v, SpecPage(Filled(0), t.r, t.w, t.x, t.u))
  {
    assert RefOk(s.refs, Fresh(p, a));
    NotDue(s, Fresh(p, a));
    MoveInv(s, Fresh(p, a), Leaf(p, v), t);
    OtherUpdate(s.refs, s.data, Fresh(p, a), t);
    LeafUpdate(s.refs - {Fresh(p, a)}, s.data, p, v, t);
  }

  lemma StepMarkCow(s: Consistent, p: Pid, v: nat)
    requires CanMarkCow(s, p, v)
    ensures Inv(DoMarkCow(s, p, v)) && SameMem(s, DoMarkCow(s, p, v))
  {
    var x := Leaf(p, v);
    assert RefOk(s.refs, x);
    ChangeInv(s, x, s.refs[x].(w := false, cow := true));
    LeafUpdate(s.refs, s.data, p, v, s.refs[x].(w := false, cow := true));
  }

  lemma StepAttach(s: Consistent, p: Pid, c: Pid, v: nat)
    requires CanShare(s, p, c, v)
    ensures Inv(DoAttach(s, p, c, v))
    ensures OnePage(s, DoAttach(s, p, c, v), c, v, PageOf(s.refs, s.data, p, v))
  {
    AttachInv(s, p, c, v);
    LeafUpdate(s.refs, s.data, c, v, s.refs[Leaf(p, v)]);
  }

  lemma StepShare(s: Consistent, p: Pid, c: Pid, v: nat)
    requires CanShare(s, p, c, v)
    ensures Inv(DoShare(s, p, c, v)) && DoShare(s, p, c, v).due == s.due
    ensures OnePage(s, DoShare(s, p, c, v), c, v, PageOf(s.refs, s.data, p, v))
  {
    StepAttach(s, p, c, v);
    CountInv(DoAttach(s, p, c, v), Leaf(c, v));
    assert DueOk(s.refs, s.due, Leaf(c, v));
  }

  lemma StepCowSwap(s: Consistent, p: Pid, v: nat, a: nat)
    requires CanCowSwap(s, p, v, a)
    ensures Inv(DoCowSwap(s, p, v, a)) && SameMem(s, DoCowSwap(s, p, v, a))
  {
    CowSwapInv(s, p, v, a);
    var t := DoCowSwap(s, p, v, a);
    forall q: Pid, w: nat ensures PageOf(t.refs, t.data, q, w) == PageOf(s.refs, s.data, q, w) {
      assert (q, w) != (p, v) ==> (Leaf(q, w) in t.refs <==> Leaf(q, w) in s.refs);
    }
  }

  lemma StepProtect(s: Consistent, p: Pid, v: nat)
    requires CanProtect(s, p, v)
    ensures Inv(DoProtect(s, p, v))
    ensures OnePage(s, DoProtect(s, p, v), p, v, PageOf(s.refs, s.data, p, v).(u := false))
  {
    var x := Leaf(p, v);
    assert RefOk(s.refs, x);
    ChangeInv(s, x, s.refs[x].(u := false));
    LeafUpdate(s.refs, s.data, p, v, s.refs[x].(u := false));
  }

  /** A page with one byte changed. */
  function Poke(page: SpecPage, off: nat, b: nat): SpecPage {
    if off < PGSIZE then page.(bytes := page.bytes[off := b]) else page
  }

  lemma StepWrite(s: Consistent, p: Pid, v: nat, off: nat, b: nat)
    requires CanWrite(s, p, v, off)
    ensures Inv(DoWrite(s, p, v, off, b))
    ensures OnePage(s, DoWrite(s, p, v, off, b), p, v, Poke(PageOf(s.refs, s.data, p, v), off, b))
  {
    SoleWrite(s, Leaf(p, v), s.data[s.refs[Leaf(p, v)].ppn][off := b]);
  }

  /** A page of count 1 has no other reference. */
  lemma CountOne(s: Consistent, x: Ref, y: Ref)
    requires x in s.refs && s.refcnt[s.refs[x].ppn] == 1 && Clear(s.due, x)
    requires y in s.refs && s.refs[y].ppn == s.refs[x].ppn
    ensures y == x
  {
    var o := Holders(s.refs, s.due.Keys, s.refs[x].ppn);
    assert DueOk(s.refs, s.due, y) && CountAt(s.refs, s.due.Keys, s.refcnt, s.refs[x].ppn);
    var z := if y in s.due then s.due[y] else y;
    assert x in o && z in o && |o| == 1;
    SubsetSize({x, z}, o);
  }

  lemma StepFill(s: Consistent, p: Pid, v: nat, off: nat, b: nat)
    requires CanFill(s, p, v, off)
    ensures Inv(DoFill(s, p, v, off, b))
    ensures OnePage(s, DoFill(s, p, v, off, b), p, v, Poke(PageOf(s.refs, s.data, p, v), off, b))
  {
    var t := DoFill(s, p, v, off, b);
    forall q: Pid, w: nat | q != p || w != v ensures PageOf(t.refs, t.data, q, w) == PageOf(s.refs, s.data, q, w) {
      if Leaf(q, w) in s.refs && s.refs[Leaf(q, w)].ppn == s.refs[Leaf(p, v)].ppn {
        CountOne(s, Leaf(p, v), Leaf(q, w));
      }
    }
  }

  predicate Enabled(s: State, a: Action) {
    match a
    case Kalloc(p) => CanKalloc(s, p)
    case Drop(x) => CanKfree(s, x)
    case Push(a) => a in s.limbo
    case ZeroFill(p, a) => CanZeroFill(s, p, a)
    case CopyInto(p, v, a) => CanCopyInto(s, p, v, a)
    case AddNode(p, a, path) => CanAddNode(s, p, a, path)
    case MapPage(p, v, a, t) => CanMapPage(s, p, v, a, t)
    case MarkCow(p, v) => CanMarkCow(s, p, v)
    case Attach(p, c, v) => CanShare(s, p, c, v)
    case Count(x) => CanCount(s, x)
    case CowSwap(p, v, a) => CanCowSwap(s, p, v, a)
    case Protect(p, v) => CanProtect(s, p, v)
    case Write(p, v, off, b) => CanWrite(s, p, v, off)
    case Fill(p, v, off, b) => CanFill(s, p, v, off)
    case SetSize(p, n) => true
  }

  function Apply(s: State, a: Action): State
    requires Enabled(s, a)
  {
    match a
    case Kalloc(p) => DoKalloc(s, p)
    case Drop(x) => DoDrop(s, x)
    case Push(a) => DoPush(s, a)
    case ZeroFill(p, a) => DoZeroFill(s, a)
    case CopyInto(p, v, a) => DoCopyInto(s, p, v, a)
    case AddNode(p, a, path) => DoAddNode(s, p, a, path)
    case MapPage(p, v, a, t) => DoMapPage(s, p, v, a, t)
    case MarkCow(p, v) => DoMarkCow(s, p, v)
    case Attach(p, c, v) => DoAttach(s, p, c, v)
    case Count(x) => DoCount(s, x)
    case CowSwap(p, v, a) => DoCowSwap(s, p, v, a)
    case Protect(p, v) => DoProtect(s, p, v)
    case Write(p, v, off, b) => DoWrite(s, p, v, off, b)
    case Fill(p, v, off, b) => DoFill(s, p, v, off, b)
    case SetSize(p, n) => DoSetSize(s, p, n)
  }

  /** The specification: every process has a memory of its own, and a step changes at most
      one page of one of them.  m is the memory before the step. */
  ghost function Next(m: (Pid, nat) -> SpecPage, a: Action, q: Pid, w: nat): SpecPage {
    match a
    case Drop(Leaf(p, v)) => if q == p && w == v then LazyPage() else m(q, w)
    case MapPage(p, v, _, t) => if q == p && w == v then SpecPage(Filled(0), t.r, t.w, t.x, t.u) else m(q, w)
    case Attach(p, c, v) => if q == c && w == v then m(p, v) else m(q, w)
    case Protect(p, v) => if q == p && w == v then m(p, v).(u := false) else m(q, w)
    case Write(p, v, off, b) => if q == p && w == v then Poke(m(p, v), off, b) else m(q, w)
    case Fill(p, v, off, b) => if q == p && w == v then Poke(m(p, v), off, b) else m(q, w)
    case _ => m(q, w)
  }

  ghost function Memory(s: State): (Pid, nat) -> SpecPage {
    (q: Pid, w: nat) => PageOf(s.refs, s.data, q, w)
  }

  /** t holds the memories that a makes of those of s. */
  ghost predicate Follows(s: State, a: Action, t: State) {
    forall q: Pid, w: nat :: PageOf(t.refs, t.data, q, w) == Next(Memory(s), a, q, w)
  }

  lemma FollowsSame(s: State, a: Action, t: State)
    requires SameMem(s, t)
    requires a.Kalloc? || a.ZeroFill? || a.CopyInto? || a.AddNode? || a.MarkCow? || a.CowSwap? ||
      a.SetSize? || a.Push? || a.Count? || (a.Drop? && !a.x.Leaf?)
    ensures Follows(s, a, t)
  {
  }

  lemma FollowsOne(s: State, a: Action, t: State, p: Pid, v: nat, page: SpecPage)
    requires OnePage(s, t, p, v, page)
    requires match a
      case Drop(x) => x == Leaf(p, v) && page == LazyPage()
      case MapPage(q, w, _, u) => q == p && w == v && page == SpecPage(Filled(0), u.r, u.w, u.x, u.u)
      case Attach(q, c, w) => c == p && w == v && page == PageOf(s.refs, s.data, q, w)
      case Protect(q, w) => q == p && w == v && page == PageOf(s.refs, s.data, q, w).(u := false)
      case Write(q, w, off, b) => q == p && w == v && page == Poke(PageOf(s.refs, s.data, q, w), off, b)
      case Fill(q, w, off, b) => q == p && w == v && page == Poke(PageOf(s.refs, s.data, q, w), off, b)
      case _ => false
    ensures Follows(s, a, t)
  {
  }

  /** One primitive step is one step on private memories. */
  lemma Step(s: Consistent, a: Action)
    requires Enabled(s, a)
    ensures Inv(Apply(s, a)) && Follows(s, a, Apply(s, a))
  {
    var t := Apply(s, a);
    match a
    case Kalloc(p) => StepKalloc(s, p); FollowsSame(s, a, t);
    case Push(b) => PushInv(s, b); FollowsSame(s, a, t);
    case Drop(x) =>
      StepDrop(s, x);
      if x.Leaf? { FollowsOne(s, a, t, x.p, x.v, LazyPage()); } else { FollowsSame(s, a, t); }
    case ZeroFill(p, b) => StepFreshWrite(s, p, b, Filled(0)); FollowsSame(s, a, t);
    case CopyInto(p, v, b) => StepFreshWrite(s, p, b, s.data[s.refs[Leaf(p, v)].ppn]); FollowsSame(s, a, t);
    case AddNode(p, b, path) => StepAddNode(s, p, b, path); FollowsSame(s, a, t);
    case MapPage(p, v, b, u) =>
      StepMapPage(s, p, v, b, u);
      FollowsOne(s, a, t, p, v, SpecPage(Filled(0), u.r, u.w, u.x, u.u));
    case MarkCow(p, v) => StepMarkCow(s, p, v); FollowsSame(s, a, t);
    case Count(x) => CountInv(s, x); FollowsSame(s, a, t);
    case Attach(p, c, v) => StepAttach(s, p, c, v); FollowsOne(s, a, t, c, v, PageOf(s.refs, s.data, p, v));
    case CowSwap(p, v, b) => StepCowSwap(s, p, v, b); FollowsSame(s, a, t);
    case Protect(p, v) => StepProtect(s, p, v); FollowsOne(s, a, t, p, v, PageOf(s.refs, s.data, p, v).(u := false));
    case Write(p, v, off, b) =>
      StepWrite(s, p, v, off, b);
      FollowsOne(s, a, t, p, v, Poke(PageOf(s.refs, s.data, p, v), off, b));
    case Fill(p, v, off, b) =>
      StepFill(s, p, v, off, b);
      FollowsOne(s, a, t, p, v, Poke(PageOf(s.refs, s.data, p, v), off, b));
    case SetSize(p, n) => FollowsSame(s, a, t);
  }

  // ---------------------------------------------------------------- whole runs

  /** After kinit: every page is free and nobody has any. */
  ghost predicate Initial(s: State) {
    && s.refs == map[] && |s.data| == |s.refcnt| && (forall a :: 0 <= a < |s.refcnt| ==> s.refcnt[a] == 0)
    && s.limbo == {} && s.due == map[] && FreeOk(s.free, s.limbo, s.refcnt)
  }

  ghost predicate StepAt(states: seq<State>, acts: seq<Action>, i: nat) {
    i < |acts| && i + 1 < |states| ==>
      Enabled(states[i], acts[i]) && states[i + 1] == Apply(states[i], acts[i])
  }

  /** Any interleaving of the primitive steps of any processes. */
  ghost predicate Run(states: seq<State>, acts: seq<Action>) {
    && |states| == |acts| + 1 && Initial(states[0])
    && forall i: nat :: StepAt(states, acts, i)
  }

  /** Page w of process q after a sequence of steps, computed without page tables, sharing or
      reference counts. */
  ghost function Expected(acts: seq<Action>, q: Pid, w: nat): SpecPage
    decreases |acts|
  {
    if acts == [] then LazyPage()
    else Next((p: Pid, v: nat) => Expected(acts[..|acts| - 1], p, v), acts[|acts| - 1], q, w)
  }

  lemma InitialInv(s: State)
    requires Initial(s)
    ensures Inv(s)
  {
    forall a: nat ensures CountAt(s.refs, s.due.Keys, s.refcnt, a) {
      assert Holders(s.refs, s.due.Keys, a) == {};
    }
  }

  lemma RunAt(states: seq<State>, acts: seq<Action>, n: nat)
    requires Run(states, acts) && n < |acts|
    ensures Enabled(states[n], acts[n]) && states[n + 1] == Apply(states[n], acts[n])
  {
    assert StepAt(states, acts, n);
  }

  /** Memories that agree before a step agree after it. */
  lemma NextAgrees(m: (Pid, nat) -> SpecPage, k: (Pid, nat) -> SpecPage, a: Action, q: Pid, w: nat)
    requires forall p: Pid, v: nat :: m(p, v) == k(p, v)
    ensures Next(m, a, q, w) == Next(k, a, q, w)
  {
  }

  /** In every run every process sees exactly its private memory, and the reference counts,
      the free list and the sharing rules are intact after every step. */
  lemma {:induction false} RunRefines(states: seq<State>, acts: seq<Action>, n: nat)
    requires Run(states, acts) && n <= |acts|
    ensures Inv(states[n])
    ensures forall q: Pid, w: nat :: PageOf(states[n].refs, states[n].data, q, w) == Expected(acts[..n], q, w)
  {
    if n == 0 {
      InitialInv(states[0]);
    } else {
      RunRefines(states, acts, n - 1);
      RunAt(states, acts, n - 1);
      Step(states[n - 1], acts[n - 1]);
      assert acts[..n][..n - 1] == acts[..n - 1];
      forall q: Pid, w: nat
        ensures PageOf(states[n].refs, states[n].data, q, w) == Expected(acts[..n], q, w)
      {
        NextAgrees(Memory(states[n - 1]), (p: Pid, v: nat) => Expected(acts[..n][..n - 1], p, v), acts[n - 1], q, w);
      }
    }
  }

  /** A user load through a valid PTE returns the byte of the private memory. */
  lemma LoadIsPrivate(states: seq<State>, acts: seq<Action>, n: nat, p: Pid, v: nat, off: nat)
    requires Run(states, acts) && n <= |acts| && off < PGSIZE && Leaf(p, v) in states[n].refs
    ensures states[n].refs[Leaf(p, v)].ppn < |states[n].data|
    ensures states[n].data[states[n].refs[Leaf(p, v)].ppn][off] == Expected(acts[..n], p, v).bytes[off]
  {
    RunRefines(states, acts, n);
    assert PageOf(states[n].refs, states[n].data, p, v) == Expected(acts[..n], p, v);
  }

  lemma AloneAt(s: Consistent, x: Ref)
    requires x in s.refs && Sole(x, s.refs[x])
    ensures s.refcnt[s.refs[x].ppn] == 1
  {
    assert DueOk(s.refs, s.due, x) && CountAt(s.refs, s.due.Keys, s.refcnt, s.refs[x].ppn);
    assert Holders(s.refs, s.due.Keys, s.refs[x].ppn) == {x};
  }

  /** In every run: a count is the number of references without those that a fork is about to
      count, a page is on the free list (once)
      exactly when its count is 0 and no kfree is about to put it there, a writable PTE leads to
      a page of count 1 and is not marked copy-on-write. */
  lemma CountsAreExact(states: seq<State>, acts: seq<Action>, n: nat, a: nat)
    requires Run(states, acts) && n <= |acts| && a < |states[n].refcnt|
    ensures states[n].refcnt[a] == |Owners(states[n].refs, a) - states[n].due.Keys|
    ensures multiset(states[n].free)[a] == if states[n].refcnt[a] == 0 && a !in states[n].limbo then 1 else 0
    ensures forall x :: x in Owners(states[n].refs, a) && x.Leaf? && states[n].refs[x].w ==>
      states[n].refcnt[a] == 1 && !states[n].refs[x].cow
  {
    RunRefines(states, acts, n);
    var s := states[n];
    assert CountAt(s.refs, s.due.Keys, s.refcnt, a);
    assert Owners(s.refs, a) - s.due.Keys == Holders(s.refs, s.due.Keys, a);
    DistinctOnce(s.free, a);
    forall x | x in Owners(s.refs, a) && x.Leaf? && s.refs[x].w ensures s.refcnt[a] == 1 && !s.refs[x].cow {
      AloneAt(s, x);
      assert RefOk(s.refs, x);
    }
  }

  lemma {:induction false} DistinctOnce(l: seq<nat>, a: nat)
    requires forall i, j :: 0 <= i < j < |l| ==> l[i] != l[j]
    ensures multiset(l)[a] == if a in l then 1 else 0
  {
    if l != [] {
      var init, last := l[..|l| - 1], l[|l| - 1];
      DistinctOnce(init, a);
      assert l == init + [last];
    }
  }

  // ---------------------------------------------------------------- fork among other processes

  /** A step that does not change what process q sees. */
  predicate Spares(a: Action, q: Pid) {
    match a
    case Drop(x) => x.Leaf? ==> x.p != q
    case MapPage(p, _, _, _) => p != q
    case Attach(_, c, _) => c != q
    case Protect(p, _) => p != q
    case Write(p, _, _, _) => p != q
    case Fill(p, _, _, _) => p != q
    case _ => true
  }

  /** What can happen while p forks c: p is in uvmcopy and c does not run yet, so that other
      processes' steps concern neither, and the fork's own steps share pages of p with c. */
  predicate DuringFork(a: Action, p: Pid, c: Pid) {
    Spares(a, p) && (Spares(a, c) || (a.Attach? && a.p == p && a.c == c))
  }

  /** Page w is shared by one of the steps acts[i..k]. */
  ghost predicate Shared(acts: seq<Action>, p: Pid, c: Pid, i: nat, k: nat, w: nat) {
    exists j: nat :: i <= j < k && j < |acts| && acts[j] == Attach(p, c, w)
  }

  lemma SharedNext(acts: seq<Action>, p: Pid, c: Pid, i: nat, k: nat, w: nat)
    requires i <= k < |acts|
    ensures Shared(acts, p, c, i, k + 1, w) <==> Shared(acts, p, c, i, k, w) || acts[k] == Attach(p, c, w)
  {
    if acts[k] == Attach(p, c, w) { assert i <= k < k + 1; }
  }

  ghost predicate SeesAt(s: State, q: Pid, w: nat, page: SpecPage) {
    PageOf(s.refs, s.data, q, w) == page
  }

  lemma StepSpares(s: Consistent, a: Action, q: Pid, w: nat)
    requires Enabled(s, a) && Spares(a, q)
    ensures SeesAt(Apply(s, a), q, w, PageOf(s.refs, s.data, q, w))
  {
    Step(s, a);
  }

  lemma StepForks(s: Consistent, a: Action, p: Pid, c: Pid, w: nat)
    requires Enabled(s, a) && DuringFork(a, p, c)
    ensures SeesAt(Apply(s, a), c, w, if a == Attach(p, c, w)
      then PageOf(s.refs, s.data, p, w) else PageOf(s.refs, s.data, c, w))
  {
    Step(s, a);
  }

  lemma ReachedInv(states: seq<State>, acts: seq<Action>, n: nat)
    requires Run(states, acts) && n <= |acts|
    ensures Inv(states[n])
  {
    RunRefines(states, acts, n);
  }

  lemma ForkStep(states: seq<State>, acts: seq<Action>, n: nat, p: Pid, c: Pid, w: nat, page: SpecPage, shared: bool)
    requires Run(states, acts) && n < |acts| && DuringFork(acts[n], p, c)
    requires SeesAt(states[n], p, w, page) && SeesAt(states[n], c, w, if shared then page else LazyPage())
    ensures SeesAt(states[n + 1], p, w, page)
    ensures SeesAt(states[n + 1], c, w, if shared || acts[n] == Attach(p, c, w) then page else LazyPage())
  {
    ReachedInv(states, acts, n);
    RunAt(states, acts, n);
    StepSpares(states[n], acts[n], p, w);
    StepForks(states[n], acts[n], p, c, w);
  }

  lemma {:induction false} ForkProgress(states: seq<State>, acts: seq<Action>, p: Pid, c: Pid, i: nat, k: nat, w: nat)
    requires Run(states, acts) && p != c && i <= k <= |acts| && forall j :: i <= j < k ==> DuringFork(acts[j], p, c)
    requires SeesAt(states[i], c, w, LazyPage())
    ensures SeesAt(states[k], p, w, PageOf(states[i].refs, states[i].data, p, w))
    ensures SeesAt(states[k], c, w, if Shared(acts, p, c, i, k, w)
      then PageOf(states[i].refs, states[i].data, p, w) else LazyPage())
  {
    if i < k {
      ForkProgress(states, acts, p, c, i, k - 1, w);
      SharedNext(acts, p, c, i, k - 1, w);
      var page := PageOf(states[i].refs, states[i].data, p, w);
      ForkStep(states, acts, k - 1, p, c, w, page, Shared(acts, p, c, i, k - 1, w));
    }
  }

  /** A fork whose steps are interleaved with those of other processes: once each page that the
      parent had mapped has been shared, the child sees exactly what the parent saw at the
      start, which the parent still sees. */
  lemma ForkAmongOthers(states: seq<State>, acts: seq<Action>, p: Pid, c: Pid, i: nat, k: nat, w: nat)
    requires Run(states, acts) && p != c && i <= k <= |acts| && forall j :: i <= j < k ==> DuringFork(acts[j], p, c)
    requires (forall v: nat :: Leaf(c, v) !in states[i].refs) && forall v: nat :: Leaf(p, v) in states[i].refs ==>
      Shared(acts, p, c, i, k, v)
    ensures PageOf(states[k].refs, states[k].data, c, w) == PageOf(states[i].refs, states[i].data, p, w)
    ensures PageOf(states[k].refs, states[k].data, p, w) == PageOf(states[i].refs, states[i].data, p, w)
  {
    ForkProgress(states, acts, p, c, i, k, w);
  }
}
