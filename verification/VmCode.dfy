/** The functions of kernel/vm.c and kernel/kalloc.c as code over the state of CowMemory.
  s always satisfies the invariant of CowMemory, because of its type.  They run without other
  processes coming between; CowMemory has the interleavings. */
module VmCode {
  import opened Basics
  import opened CowMemory

  /** PGROUNDUP of a size, as a number of pages: as many as it takes. */
  function PagesOf(n: nat): (k: nat)
    ensures n <= 4096 * k < n + 4096
  {
    (n + 4095) / 4096
  }

  /** PGROUNDDOWN of an address, as a page number, and what it cuts off. */
  function PageNo(va: nat): (v: nat)
    ensures 4096 * v <= va < 4096 * v + 4096
  {
    va / 4096
  }

  function Offset(va: nat): (off: nat)
    ensures off < PGSIZE && 4096 * PageNo(va) + off == va
  {
    va % 4096
  }

  // ---------------------------------------------------------------- frames

  ghost predicate SameAt(r: Refs, t: Refs, x: Ref) {
    if x in r then x in t && t[x] == r[x] else x !in t
  }

  /** Apart from those in xs, all references are the same, but process p may have got more
      page-table pages. */
  ghost predicate Kept(r: Refs, t: Refs, p: Pid, xs: set<Ref>) {
    forall x: Ref :: x !in xs && (!x.Node? || x.p != p || x in r) ==> SameAt(r, t, x)
  }

  /** No page that is in use changes its contents. */
  ghost predicate DataKept(s: State, t: State) {
    |t.data| == |s.data| && forall x :: x in s.refs && s.refs[x].ppn < |s.data| ==>
      t.data[s.refs[x].ppn] == s.data[s.refs[x].ppn]
  }

  /** walk for process p: at most page-table pages are added. */
  ghost predicate Walked(s: State, t: State, p: Pid) {
    SameMem(s, t) && t.sz == s.sz && DataKept(s, t) && Kept(s.refs, t.refs, p, {})
  }

  /** A page fault of p at page v: nobody can see that it happened. */
  ghost predicate Faulted(s: State, t: State, p: Pid, v: nat) {
    SameMem(s, t) && t.sz == s.sz && Kept(s.refs, t.refs, p, {Leaf(p, v)})
  }

  lemma KeptTrans(r: Refs, t: Refs, u: Refs, p: Pid, xs: set<Ref>, ys: set<Ref>)
    requires Kept(r, t, p, xs) && Kept(t, u, p, ys)
    ensures Kept(r, u, p, xs + ys)
  {
    forall x: Ref | x !in xs + ys && (!x.Node? || x.p != p || x in r) ensures SameAt(r, u, x) {
      assert SameAt(r, t, x) && SameAt(t, u, x);
    }
  }

  lemma NodeKept(r: Refs, t: Refs, p: Pid, xs: set<Ref>, path: Path)
    requires Kept(r, t, p, xs) && Node(p, path) in r && Node(p, path) !in xs
    ensures Node(p, path) in t
  {
    assert SameAt(r, t, Node(p, path));
  }

  lemma WalkedTrans(s: State, t: State, u: State, p: Pid)
    requires Walked(s, t, p) && Walked(t, u, p)
    ensures Walked(s, u, p)
  {
    KeptTrans(s.refs, t.refs, u.refs, p, {}, {});
    assert forall x :: x in s.refs ==> SameAt(s.refs, t.refs, x);
  }

  lemma SameMemTrans(s: State, t: State, u: State)
    requires SameMem(s, t) && SameMem(t, u)
    ensures SameMem(s, u)
  {
  }

  lemma OnePageTrans(s: State, t: State, u: State, p: Pid, v: nat, page: SpecPage)
    requires SameMem(s, t) || OnePage(s, t, p, v, PageOf(t.refs, t.data, p, v))
    requires OnePage(t, u, p, v, page)
    ensures OnePage(s, u, p, v, page)
  {
  }

  /** Process p has taken page a from the free list. */
  ghost predicate Took(s: State, t: State, p: Pid, a: nat) {
    && a < |t.data| && Fresh(p, a) !in s.refs && t.refs == s.refs[Fresh(p, a) := Plain(a)]
    && |t.free| == |s.free| - 1 && forall x :: x in s.refs ==> s.refs[x].ppn != a
  }

  // ---------------------------------------------------------------- facts about single steps

  lemma KallocReady(s: Consistent, p: Pid)
    requires s.free != []
    ensures CanKalloc(s, p) && forall x :: x in s.refs ==> s.refs[x].ppn != s.free[0]
  {
    FreePop(s.free, s.limbo, s.refcnt);
    Unowned(s, s.free[0]);
  }

  /** A page taken with kalloc and entered as a page-table page. */
  lemma NodeAdded(r: Refs, p: Pid, a: nat, path: Path)
    requires Fresh(p, a) !in r && Node(p, path) !in r
    ensures Kept(r, (r[Fresh(p, a) := Plain(a)] - {Fresh(p, a)})[Node(p, path) := Plain(a)], p, {})
  {
  }

  lemma NoTable(s: Consistent, p: Pid, v: nat, level: nat)
    requires 1 <= level <= 2 && Node(p, PathAt(v, level)) !in s.refs
    ensures Node(p, LowPath(v)) !in s.refs
  {
    assert Node(p, LowPath(v)) in s.refs ==> RefOk(s.refs, Node(p, LowPath(v)));
  }

  lemma FreshIsPlain(s: Consistent, p: Pid, a: nat)
    requires Fresh(p, a) in s.refs
    ensures CanKfree(s, Fresh(p, a)) && s.refs[Fresh(p, a)] == Plain(a) && a < |s.data|
  {
    assert RefOk(s.refs, Fresh(p, a));
    NotDue(s, Fresh(p, a));
  }

  lemma LeafInRange(s: Consistent, p: Pid, v: nat)
    requires Leaf(p, v) in s.refs
    ensures s.refs[Leaf(p, v)].ppn < |s.data| && v < TRAPFRAME && Node(p, LowPath(v)) in s.refs
    ensures !(s.refs[Leaf(p, v)].w && s.refs[Leaf(p, v)].cow) && s.refs[Leaf(p, v)].r
  {
    assert RefOk(s.refs, Leaf(p, v));
  }

  function PathAt(v: nat, level: nat): Path {
    if level == 2 then Mid(Px2(v)) else if level == 1 then LowPath(v) else Root
  }

  /** PTE_R | PTE_W | PTE_U. */
  function LazyPte(a: nat): Pte {
    Pte(a, true, true, false, true, false)
  }

  /** The PTE after a copy: writable, and no longer copy-on-write. */
  function Privatised(t: Pte, a: nat): Pte {
    t.(ppn := a, w := true, cow := false)
  }

  /** vmfault on a copy-on-write page, from kalloc to kfree, replaces one PTE. */
  lemma CowRefs(r: Refs, p: Pid, v: nat, a: nat)
    requires Leaf(p, v) in r && Stale(p, r[Leaf(p, v)].ppn) !in r && Fresh(p, a) !in r
    ensures var l, st, f := Leaf(p, v), Stale(p, r[Leaf(p, v)].ppn), Fresh(p, a);
      var r1 := r[f := Plain(a)];
      (((r1 - {l})[st := Plain(r[l].ppn)] - {f})[l := Privatised(r[l], a)]) - {st} == r[l := Privatised(r[l], a)]
  {
  }

  lemma MapKept(r: Refs, p: Pid, v: nat, a: nat, perm: Pte)
    ensures Kept(r, (r - {Fresh(p, a)})[Leaf(p, v) := perm], p, {Leaf(p, v), Fresh(p, a)})
  {
  }

  lemma TookKept(r: Refs, p: Pid, a: nat)
    ensures Kept(r, r[Fresh(p, a) := Plain(a)], p, {Fresh(p, a)})
  {
  }

  /** Taking a page and mapping it, or giving it back, leaves at most the leaf different. */
  lemma LazyKept(r: Refs, t: Refs, u: Refs, p: Pid, xs: set<Ref>, a: nat)
    requires Kept(r, t, p, {Fresh(p, a)}) && Kept(t, u, p, xs + {Fresh(p, a)})
    requires Fresh(p, a) !in r && Fresh(p, a) !in u
    ensures Kept(r, u, p, xs)
  {
    KeptTrans(r, t, u, p, {Fresh(p, a)}, xs + {Fresh(p, a)});
    assert {Fresh(p, a)} + (xs + {Fresh(p, a)}) == xs + {Fresh(p, a)};
  }

  lemma GivenBack(r: Refs, t: Refs, p: Pid, a: nat)
    requires Kept(r, t, p, {})
    ensures Kept(r, t - {Fresh(p, a)}, p, {Fresh(p, a)})
  {
    var u := t - {Fresh(p, a)};
    forall x: Ref | x != Fresh(p, a) && (!x.Node? || x.p != p || x in r) ensures SameAt(r, u, x) {
      assert SameAt(r, t, x);
    }
  }

  /** What an operation on process p relies on: it has a page table, its size is below the
      fixed mappings, and no page of it waits to be freed. */
  ghost predicate Ready(s: State, p: Pid) {
    && p in s.sz && PagesOf(s.sz[p]) <= TRAPFRAME && Node(p, Root) in s.refs
    && forall a :: Stale(p, a) !in s.refs
  }

  function Leaves(p: Pid, lo: nat, hi: nat): set<Ref> {
    set v: nat | lo <= v < hi :: Leaf(p, v)
  }

  /** Pages [lo, hi) of p are dropped; everything else is as it was. */
  ghost predicate Dropped(s: State, t: State, p: Pid, lo: nat, hi: nat) {
    && |t.data| == |s.data|
    && forall q: Pid, w: nat ::
      PageOf(t.refs, t.data, q, w) == if q == p && lo <= w < hi then LazyPage() else PageOf(s.refs, s.data, q, w)
  }

  lemma DroppedNext(s: State, t: State, u: State, p: Pid, lo: nat, v: nat)
    requires Dropped(s, t, p, lo, v) && OnePage(t, u, p, v, LazyPage()) && lo <= v
    ensures Dropped(s, u, p, lo, v + 1)
  {
  }

  lemma LeavesNext(r: Refs, p: Pid, lo: nat, v: nat)
    requires lo <= v
    ensures r - Leaves(p, lo, v + 1) == r - Leaves(p, lo, v) - {Leaf(p, v)}
  {
  }

  /** The PTE that a successful fault leaves behind. */
  ghost predicate FaultPte(r: Refs, t: Refs, p: Pid, v: nat, a: nat) {
    Leaf(p, v) in t && t[Leaf(p, v)] == if Leaf(p, v) in r then Privatised(r[Leaf(p, v)], a) else LazyPte(a)
  }

  /** Mapped, and neither a copy is due nor a write is wanted. */
  predicate Unfaultable(r: Refs, p: Pid, v: nat, read: bool) {
    Leaf(p, v) in r && (read || !r[Leaf(p, v)].cow)
  }

  /** The same pages with the same rights; a writable one may have become copy-on-write. */
  ghost predicate SamePages(r: Refs, t: Refs, p: Pid) {
    forall v: nat :: (Leaf(p, v) in r <==> Leaf(p, v) in t) &&
      (Leaf(p, v) in r ==> t[Leaf(p, v)] == r[Leaf(p, v)] || t[Leaf(p, v)] == Cowed(r[Leaf(p, v)]))
  }

  /** PTE_W off, PTE_COW on, for a PTE that had PTE_W. */
  function Cowed(t: Pte): Pte {
    t.(w := false, cow := t.cow || t.w)
  }

  ghost predicate CopyFrame(r: Refs, t: Refs, p: Pid, c: Pid, v: nat) {
    && Kept(r, t, c, {Leaf(p, v), Leaf(c, v)}) && Leaf(p, v) in r && Leaf(p, v) in t
    && (t[Leaf(p, v)] == r[Leaf(p, v)] || t[Leaf(p, v)] == Cowed(r[Leaf(p, v)]))
  }

  lemma CopyKept(r: Refs, t: Refs, u: Refs, p: Pid, c: Pid, v: nat)
    requires p != c && Leaf(p, v) in r && t == r[Leaf(p, v) := Cowed(r[Leaf(p, v)])] && Kept(t, u, c, {})
    ensures CopyFrame(r, u, p, c, v) && u[Leaf(p, v)] == Cowed(r[Leaf(p, v)]) && SameAt(r, u, Leaf(c, v))
    ensures CopyFrame(r, u[Leaf(c, v) := u[Leaf(p, v)]], p, c, v)
  {
    assert Kept(r, t, c, {Leaf(p, v)});
    KeptTrans(r, t, u, c, {Leaf(p, v)}, {});
    assert SameAt(t, u, Leaf(p, v));
    assert {Leaf(p, v)} + {} == {Leaf(p, v)};
    forall x: Ref | x != Leaf(p, v) && x != Leaf(c, v) && (!x.Node? || x.p != c || x in r)
      ensures SameAt(r, u[Leaf(c, v) := u[Leaf(p, v)]], x)
    {
      assert SameAt(r, u, x);
    }
  }

  lemma CopyFramePages(r: Refs, t: Refs, p: Pid, c: Pid, v: nat)
    requires p != c && CopyFrame(r, t, p, c, v)
    ensures SamePages(r, t, p)
  {
    assert forall w: nat :: w != v ==> SameAt(r, t, Leaf(p, w));
  }

  /** The first n pages of c are now those of p; everything else is as it was. */
  ghost predicate Copied(s: State, t: State, p: Pid, c: Pid, n: nat) {
    && |t.data| == |s.data|
    && forall q: Pid, w: nat ::
      PageOf(t.refs, t.data, q, w) ==
        if q == c && w < n then PageOf(s.refs, s.data, p, w) else PageOf(s.refs, s.data, q, w)
  }

  lemma CopiedNext(s: State, t: State, u: State, p: Pid, c: Pid, v: nat)
    requires p != c && Copied(s, t, p, c, v) && OnePage(t, u, c, v, PageOf(t.refs, t.data, p, v))
    ensures Copied(s, u, p, c, v + 1)
  {
  }

  lemma CopiedSame(s: State, t: State, u: State, p: Pid, c: Pid, v: nat)
    requires Copied(s, t, p, c, v) && SameMem(t, u)
    ensures Copied(s, u, p, c, v)
  {
  }

  /** Process c has no leaf from page v on. */
  ghost predicate NoLeaves(r: Refs, c: Pid, v: nat) {
    forall w: nat :: w >= v ==> Leaf(c, w) !in r
  }

  lemma SamePagesTrans(r: Refs, t: Refs, u: Refs, p: Pid)
    requires SamePages(r, t, p) && SamePages(t, u, p)
    ensures SamePages(r, u, p)
  {
  }

  /** What copying pages of p to c may do to references. */
  ghost predicate CopyState(r: Refs, t: Refs, p: Pid, c: Pid) {
    && SamePages(r, t, p)
    && forall x: Ref :: (!x.Leaf? || (x.p != p && x.p != c)) && (!x.Node? || x.p != c || x in r) ==> SameAt(r, t, x)
  }

  predicate LeafShared(r: Refs, p: Pid, c: Pid, w: nat) {
    Leaf(p, w) in r ==> Leaf(c, w) in r && r[Leaf(c, w)] == r[Leaf(p, w)]
  }

  /** Up to page v, c has the PTEs of p. */
  ghost predicate SharedUpTo(r: Refs, p: Pid, c: Pid, v: nat) {
    forall w: nat :: w < v ==> LeafShared(r, p, c, w)
  }

  lemma SharedUpToNext(r: Refs, t: Refs, p: Pid, c: Pid, v: nat)
    requires SharedUpTo(r, p, c, v) && Kept(r, t, c, {Leaf(p, v), Leaf(c, v)})
    ensures SharedUpTo(t, p, c, v) && (LeafShared(t, p, c, v) ==> SharedUpTo(t, p, c, v + 1))
  {
    forall w: nat | w < v ensures LeafShared(t, p, c, w) {
      assert SameAt(r, t, Leaf(p, w)) && SameAt(r, t, Leaf(c, w)) && LeafShared(r, p, c, w);
    }
  }

  /** uvmcopy from s has got to page v. */
  ghost predicate Sharing(s: State, t: State, p: Pid, c: Pid, v: nat) {
    && Node(c, Root) in t.refs && CopyState(s.refs, t.refs, p, c)
    && Copied(s, t, p, c, v) && NoLeaves(t.refs, c, v) && SharedUpTo(t.refs, p, c, v)
  }

  lemma CopyStateNext(r: Refs, t: Refs, u: Refs, p: Pid, c: Pid, v: nat)
    requires p != c && NoLeaves(t, c, v) && CopyState(r, t, p, c)
    requires Kept(t, u, c, {Leaf(p, v), Leaf(c, v)}) && SamePages(t, u, p)
    ensures CopyState(r, u, p, c) && NoLeaves(u, c, v + 1)
  {
    forall x: Ref | (!x.Leaf? || (x.p != p && x.p != c)) && (!x.Node? || x.p != c || x in r) ensures SameAt(r, u, x) {
      assert SameAt(r, t, x) && SameAt(t, u, x);
    }
    assert forall w: nat :: w > v ==> SameAt(t, u, Leaf(c, w));
    SamePagesTrans(r, t, u, p);
  }

  lemma SharingNext(s: State, t: State, u: State, p: Pid, c: Pid, v: nat, ok: bool)
    requires p != c && Sharing(s, t, p, c, v) && Kept(t.refs, u.refs, c, {Leaf(p, v), Leaf(c, v)})
    requires SamePages(t.refs, u.refs, p) && if ok then LeafShared(u.refs, p, c, v) else Leaf(c, v) !in u.refs
    requires if ok then OnePage(t, u, c, v, PageOf(t.refs, t.data, p, v)) else SameMem(t, u)
    ensures Sharing(s, u, p, c, if ok then v + 1 else v)
  {
    NodeKept(t.refs, u.refs, c, {Leaf(p, v), Leaf(c, v)}, Root);
    CopyStateNext(s.refs, t.refs, u.refs, p, c, v);
    SharedUpToNext(t.refs, u.refs, p, c, v);
    if ok {
      CopiedNext(s, t, u, p, c, v);
    } else {
      CopiedSame(s, t, u, p, c, v);
    }
  }

  /** uvmcopy's error path takes back what was shared. */
  lemma CopyUndone(r: Refs, u: Refs, p: Pid, c: Pid, v: nat)
    requires p != c && NoLeaves(u, c, v) && CopyState(r, u, p, c)
    ensures CopyState(r, u - Leaves(c, 0, v), p, c) && NoLeaves(u - Leaves(c, 0, v), c, 0)
  {
    forall x: Ref | (!x.Leaf? || (x.p != p && x.p != c)) && (!x.Node? || x.p != c || x in r)
      ensures SameAt(r, u - Leaves(c, 0, v), x)
    {
      assert SameAt(r, u, x);
    }
  }

  lemma CopyUnseen(s: State, t: State, u: State, p: Pid, c: Pid, v: nat)
    requires p != c && NoLeaves(s.refs, c, 0) && Copied(s, t, p, c, v) && Dropped(t, u, c, 0, v)
    ensures SameMem(s, u)
  {
  }

  /** Page w of p is mapped with the rights of page, and not copy-on-write. */
  predicate MappedAs(r: Refs, p: Pid, w: nat, page: SpecPage) {
    && Leaf(p, w) in r && !r[Leaf(p, w)].cow && r[Leaf(p, w)].r == page.r && r[Leaf(p, w)].w == page.w
    && r[Leaf(p, w)].x == page.x && r[Leaf(p, w)].u == page.u
  }

  /** Pages [lo, v) of p have been added to s; they look like page. */
  ghost predicate Growing(s: State, t: State, p: Pid, lo: nat, v: nat, page: SpecPage) {
    && |t.data| == |s.data| && Node(p, Root) in t.refs && NoLeaves(t.refs, p, v) && lo <= v
    && (forall x: Ref :: !(x.Leaf? && x.p == p && lo <= x.v) && (!x.Node? || x.p != p || x in s.refs) ==>
      SameAt(s.refs, t.refs, x))
    && (forall w: nat :: lo <= w < v ==> MappedAs(t.refs, p, w, page))
    && (forall q: Pid, w: nat ::
      PageOf(t.refs, t.data, q, w) == if q == p && lo <= w < v then page else PageOf(s.refs, s.data, q, w))
  }

  lemma GrowFrame(s: State, t: State, u: State, p: Pid, lo: nat, v: nat, page: SpecPage)
    requires Growing(s, t, p, lo, v, page) && Kept(t.refs, u.refs, p, {Leaf(p, v)})
    ensures Node(p, Root) in u.refs && NoLeaves(u.refs, p, v + 1)
    ensures forall x: Ref :: !(x.Leaf? && x.p == p && lo <= x.v) && (!x.Node? || x.p != p || x in s.refs) ==>
      SameAt(s.refs, u.refs, x)
    ensures forall w: nat :: lo <= w < v ==> MappedAs(u.refs, p, w, page)
  {
    forall x: Ref | !(x.Leaf? && x.p == p && lo <= x.v) && (!x.Node? || x.p != p || x in s.refs)
      ensures SameAt(s.refs, u.refs, x)
    {
      assert SameAt(s.refs, t.refs, x) && SameAt(t.refs, u.refs, x);
    }
    forall w: nat | w != v ensures SameAt(t.refs, u.refs, Leaf(p, w)) {}
    assert SameAt(t.refs, u.refs, Node(p, Root));
    forall w: nat | lo <= w < v ensures MappedAs(u.refs, p, w, page) {
      assert MappedAs(t.refs, p, w, page) && SameAt(t.refs, u.refs, Leaf(p, w));
    }
  }

  lemma GrowNext(s: State, t: State, u: State, p: Pid, lo: nat, v: nat, page: SpecPage, ok: bool)
    requires Growing(s, t, p, lo, v, page) && Kept(t.refs, u.refs, p, if ok then {Leaf(p, v)} else {})
    requires if ok then MappedAs(u.refs, p, v, page) && OnePage(t, u, p, v, page) else SameMem(t, u)
    ensures Growing(s, u, p, lo, if ok then v + 1 else v, page)
  {
    GrowFrame(s, t, u, p, lo, v, page);
    if !ok { assert SameAt(t.refs, u.refs, Leaf(p, v)); }
  }

  lemma GrowUndone(s: State, t: State, u: State, p: Pid, lo: nat, v: nat, page: SpecPage)
    requires Growing(s, t, p, lo, v, page) && NoLeaves(s.refs, p, lo)
    requires u.refs == t.refs - Leaves(p, lo, v) && Dropped(t, u, p, lo, v)
    ensures SameMem(s, u) && Kept(s.refs, u.refs, p, {})
  {
    forall x: Ref | !x.Node? || x.p != p || x in s.refs ensures SameAt(s.refs, u.refs, x) {
      if !(x.Leaf? && x.p == p && lo <= x.v) { assert SameAt(s.refs, t.refs, x); }
    }
  }

  lemma BelowSize(va: nat, sz: nat)
    ensures va < sz ==> PageNo(va) < PagesOf(sz)
  {
  }

  // ---------------------------------------------------------------- how much memory is needed

  /** The page-table pages below the root that lead to page v, and to the pages in vs. */
  function TablesOf(v: nat): set<Path> {
    {Mid(Px2(v)), LowPath(v)}
  }

  ghost function Tables(vs: set<nat>): set<Path> {
    (set v | v in vs :: Mid(Px2(v))) + (set v | v in vs :: LowPath(v))
  }

  /** Those that process p does not have yet. */
  ghost function Lacking(r: Refs, p: Pid, vs: set<nat>): set<Path> {
    Missing(r, p, Tables(vs))
  }

  ghost function Missing(r: Refs, p: Pid, qs: set<Path>): set<Path> {
    set q | q in qs && Node(p, q) !in r
  }

  lemma MissingOne(r: Refs, p: Pid, qs: set<Path>, q: Path)
    ensures |Missing(r, p, qs + {q})| == |Missing(r, p, qs)| + if q in qs || Node(p, q) in r then 0 else 1
  {
    if q in qs {
      assert qs + {q} == qs;
    } else if Node(p, q) in r {
      assert Missing(r, p, qs + {q}) == Missing(r, p, qs);
    } else {
      assert Missing(r, p, qs + {q}) == Missing(r, p, qs) + {q} && q !in Missing(r, p, qs);
    }
  }

  function Short(r: Refs, p: Pid, v: nat): nat {
    (if Node(p, Mid(Px2(v))) in r then 0 else 1) + (if Node(p, LowPath(v)) in r then 0 else 1)
  }

  /** The pages that it takes to give p a page of its own at v. */
  function Needs(r: Refs, p: Pid, v: nat): nat {
    if Leaf(p, v) !in r then Short(r, p, v) + 1 else if r[Leaf(p, v)].cow then 1 else 0
  }

  predicate NodeAt(r: Refs, t: Refs, p: Pid, more: bool, q: Path) {
    Node(p, q) in t <==> Node(p, q) in r || more
  }

  predicate NodeAdd(r: Refs, t: Refs, p: Pid, path: Path, q: Path) {
    Node(p, q) in t <==> Node(p, q) in r || q == path
  }

  /** In t process p has the page-table page at path, for which a page was taken if need be. */
  ghost predicate Added(s: State, t: State, p: Pid, path: Path) {
    && |s.free| == |t.free| + (if Node(p, path) in s.refs then 0 else 1)
    && forall q: Path :: NodeAdd(s.refs, t.refs, p, path, q)
  }

  lemma AddedNone(s: State, p: Pid, path: Path)
    requires Node(p, path) in s.refs
    ensures Added(s, s, p, path)
  {
    forall q: Path ensures NodeAdd(s.refs, s.refs, p, path, q) {}
  }

  lemma NodeAddedOnly(r: Refs, p: Pid, a: nat, path: Path)
    ensures var u := (r[Fresh(p, a) := Plain(a)] - {Fresh(p, a)})[Node(p, path) := Plain(a)];
      forall q: Path :: NodeAdd(r, u, p, path, q)
  {
    var u := (r[Fresh(p, a) := Plain(a)] - {Fresh(p, a)})[Node(p, path) := Plain(a)];
    forall q: Path ensures NodeAdd(r, u, p, path, q) {}
  }

  /** In t process p has the page-table pages that it has in r and those for the pages in vs. */
  ghost predicate NodesAre(r: Refs, t: Refs, p: Pid, vs: set<nat>) {
    forall q: Path :: NodeAt(r, t, p, q in Tables(vs), q)
  }

  lemma TablesNext(vs: set<nat>, v: nat)
    ensures Tables(vs + {v}) == Tables(vs) + TablesOf(v)
  {
    forall q: Path ensures q in Tables(vs + {v}) <==> q in Tables(vs) || q in TablesOf(v) {
      assert v in vs + {v};
      if q in Tables(vs) {
        var w :| w in vs && (q == Mid(Px2(w)) || q == LowPath(w));
        assert w in vs + {v};
      }
    }
  }

  lemma NodesNext(r: Refs, t: Refs, u: Refs, p: Pid, vs: set<nat>, v: nat)
    requires NodesAre(r, t, p, vs) && NodesAre(t, u, p, {v})
    ensures NodesAre(r, u, p, vs + {v})
  {
    TablesNext(vs, v);
    TablesNext({}, v);
    assert {} + {v} == {v};
    var all := vs + {v};
    forall q: Path ensures NodeAt(r, u, p, q in Tables(all), q) {
      assert NodeAt(r, t, p, q in Tables(vs), q) && NodeAt(t, u, p, q in Tables({v}), q);
    }
  }

  /** The tables for one page more. */
  lemma LackingNext(r: Refs, t: Refs, p: Pid, vs: set<nat>, v: nat)
    requires NodesAre(r, t, p, vs)
    ensures |Lacking(r, p, vs + {v})| == |Lacking(r, p, vs)| + Short(t, p, v)
  {
    TablesNext(vs, v);
    var a, b, had := Mid(Px2(v)), LowPath(v), Tables(vs);
    assert NodeAt(r, t, p, a in had, a) && NodeAt(r, t, p, b in had, b);
    assert had + TablesOf(v) == had + {a} + {b};
    MissingOne(r, p, had, a);
    MissingOne(r, p, had + {a}, b);
  }

  lemma LackingOne(r: Refs, p: Pid, v: nat)
    ensures |Lacking(r, p, {v})| == Short(r, p, v) && Lacking(r, p, {}) == {} && NodesAre(r, r, p, {})
  {
    assert {} + {v} == {v} && Tables({}) == {};
    forall q: Path ensures NodeAt(r, r, p, q in Tables({}), q) {}
    LackingNext(r, r, p, {}, v);
  }

  lemma LackingMore(r: Refs, p: Pid, vs: set<nat>, ws: set<nat>)
    requires vs <= ws
    ensures |Lacking(r, p, vs)| <= |Lacking(r, p, ws)|
  {
    assert Lacking(r, p, vs) <= Lacking(r, p, ws);
    SubsetSize(Lacking(r, p, vs), Lacking(r, p, ws));
  }

  ghost predicate SameNodes(r: Refs, t: Refs, p: Pid) {
    forall q: Path :: NodeAt(r, t, p, false, q)
  }

  /** The references may have changed elsewhere. */
  lemma ShortSame(r: Refs, t: Refs, p: Pid, v: nat, vs: set<nat>)
    requires SameNodes(r, t, p)
    ensures Short(t, p, v) == Short(r, p, v) && Lacking(t, p, vs) == Lacking(r, p, vs)
  {
    assert NodeAt(r, t, p, false, Mid(Px2(v))) && NodeAt(r, t, p, false, LowPath(v));
    forall q: Path ensures q in Lacking(t, p, vs) <==> q in Lacking(r, p, vs) { assert NodeAt(r, t, p, false, q); }
  }

  /** From s to t process p has got the tables for the pages in vs and k pages more. */
  ghost predicate Spent(s: State, t: State, p: Pid, vs: set<nat>, k: nat) {
    |t.free| + |Lacking(s.refs, p, vs)| + k == |s.free| && NodesAre(s.refs, t.refs, p, vs)
  }

  lemma SpentNone(s: State, p: Pid)
    ensures Spent(s, s, p, {}, 0)
  {
    LackingOne(s.refs, p, 0);
  }

  /** A table without the one above it does not exist. */
  lemma WalkStart(s: Consistent, p: Pid, v: nat)
    ensures Node(p, LowPath(v)) in s.refs ==> Node(p, Mid(Px2(v))) in s.refs
  {
    assert Node(p, LowPath(v)) in s.refs ==> RefOk(s.refs, Node(p, LowPath(v)));
  }

  lemma AddedShort(s: State, t: State, p: Pid, v: nat)
    requires Added(s, t, p, Mid(Px2(v)))
    ensures |s.free| - |t.free| + (if Node(p, LowPath(v)) in t.refs then 0 else 1) == Short(s.refs, p, v)
  {
    assert NodeAdd(s.refs, t.refs, p, Mid(Px2(v)), LowPath(v));
  }

  /** walk to page v has got to this level. */
  ghost predicate WalkedTo(s: State, t: State, p: Pid, v: nat, level: nat) {
    && Walked(s, t, p) && Node(p, PathAt(v, level + 1)) in t.refs
    && if level == 2 then t == s
       else if level == 1 then Added(s, t, p, Mid(Px2(v)))
       else Spent(s, t, p, {v}, 0)
  }

  lemma WalkSpent(s: State, t: State, u: State, p: Pid, v: nat)
    requires Added(s, t, p, Mid(Px2(v))) && Added(t, u, p, LowPath(v))
    ensures Spent(s, u, p, {v}, 0)
  {
    AddedShort(s, t, p, v);
    LackingOne(s.refs, p, v);
    TablesNext({}, v);
    assert {} + {v} == {v} && Tables({}) == {};
    forall q: Path ensures NodeAt(s.refs, u.refs, p, q in Tables({v}), q) {
      assert NodeAdd(s.refs, t.refs, p, Mid(Px2(v)), q) && NodeAdd(t.refs, u.refs, p, LowPath(v), q);
    }
  }

  /** k is 1 if the turn for page v takes a page besides the tables. */
  lemma SpentNext(s: State, t: State, u: State, p: Pid, vs: set<nat>, k: nat, v: nat, n: nat)
    requires Spent(s, t, p, vs, k)
    ensures Spent(t, u, p, {v}, n) ==> Spent(s, u, p, vs + {v}, k + n)
    ensures |t.free| < Short(t.refs, p, v) + n ==> |s.free| < |Lacking(s.refs, p, vs + {v})| + k + n
  {
    LackingNext(s.refs, t.refs, p, vs, v);
    LackingOne(t.refs, p, v);
    if Spent(t, u, p, {v}, n) { NodesNext(s.refs, t.refs, u.refs, p, vs, v); }
  }

  /** References other than to p's tables do not matter; j pages more have been taken. */
  lemma SpentElsewhere(s: State, t: State, u: State, p: Pid, vs: set<nat>, k: nat, j: nat)
    requires Spent(s, t, p, vs, k) && |t.free| == |u.free| + j && SameNodes(t.refs, u.refs, p)
    ensures Spent(s, u, p, vs, k + j)
  {
    forall q: Path ensures NodeAt(s.refs, u.refs, p, q in Tables(vs), q) {
      assert NodeAt(s.refs, t.refs, p, q in Tables(vs), q) && NodeAt(t.refs, u.refs, p, false, q);
    }
  }

  /** Likewise before. */
  lemma SpentAfter(s: State, t: State, u: State, p: Pid, vs: set<nat>, k: nat, j: nat)
    requires Spent(t, u, p, vs, k) && |s.free| == |t.free| + j && SameNodes(s.refs, t.refs, p)
    ensures Spent(s, u, p, vs, k + j)
  {
    ShortSame(s.refs, t.refs, p, 0, vs);
    forall q: Path ensures NodeAt(s.refs, u.refs, p, q in Tables(vs), q) {
      assert NodeAt(t.refs, u.refs, p, q in Tables(vs), q) && NodeAt(s.refs, t.refs, p, false, q);
    }
  }

  lemma NodesMapped(r: Refs, p: Pid, v: nat, a: nat, perm: Pte)
    ensures SameNodes(r, (r - {Fresh(p, a)})[Leaf(p, v) := perm], p)
  {
    var t := (r - {Fresh(p, a)})[Leaf(p, v) := perm];
    forall q: Path ensures NodeAt(r, t, p, false, q) {}
  }

  lemma NodesUntouched(r: Refs, p: Pid, x: Ref, e: Pte)
    requires !x.Node?
    ensures SameNodes(r, r[x := e], p) && SameNodes(r, r - {x}, p)
  {
    var t, u := r[x := e], r - {x};
    forall q: Path ensures NodeAt(r, t, p, false, q) && NodeAt(r, u, p, false, q) {}
  }

  /** How many page-table pages c lacks to share p's first n pages. */
  ghost function ShareNeeds(r: Refs, p: Pid, c: Pid, n: nat): nat {
    |Lacking(r, c, MappedPages(r, p, n))|
  }

  /** How many pages it takes to give p the pages [lo, hi). */
  ghost function GrowNeeds(r: Refs, p: Pid, lo: nat, hi: nat): nat
    requires lo <= hi
  {
    |Lacking(r, p, Range(lo, hi))| + hi - lo
  }

  lemma ShareNeedsMore(r: Refs, p: Pid, c: Pid, v: nat, n: nat)
    requires v <= n
    ensures ShareNeeds(r, p, c, v) <= ShareNeeds(r, p, c, n)
  {
    LackingMore(r, c, MappedPages(r, p, v), MappedPages(r, p, n));
  }

  lemma GrowNeedsMore(r: Refs, p: Pid, lo: nat, v: nat, hi: nat)
    requires lo <= v <= hi
    ensures GrowNeeds(r, p, lo, v) <= GrowNeeds(r, p, lo, hi)
  {
    LackingMore(r, p, Range(lo, v), Range(lo, hi));
  }

  /** uvmcopy has got to page v, having taken the tables needed so far. */
  ghost predicate SharedTo(s: State, t: State, p: Pid, c: Pid, v: nat) {
    Spent(s, t, c, MappedPages(s.refs, p, v), 0)
  }

  lemma SharedEnough(s: State, t: State, p: Pid, c: Pid, v: nat)
    requires SharedTo(s, t, p, c, v)
    ensures ShareNeeds(s.refs, p, c, v) <= |s.free|
  {
  }

  ghost predicate GrownTo(s: State, t: State, p: Pid, lo: nat, v: nat) {
    lo <= v && Spent(s, t, p, Range(lo, v), v - lo)
  }

  lemma GrownEnough(s: State, t: State, p: Pid, lo: nat, v: nat)
    requires GrownTo(s, t, p, lo, v)
    ensures GrowNeeds(s.refs, p, lo, v) <= |s.free|
  {
  }

  lemma MappedNext(r: Refs, t: Refs, p: Pid, v: nat)
    requires SamePages(r, t, p)
    ensures MappedPages(r, p, v + 1) == MappedPages(r, p, v) + if Leaf(p, v) in t then {v} else {}
  {
    PagesNext(r, p, 0, v);
  }

  lemma ShareSpent(s: State, t: State, u: State, c: Pid, vs: set<nat>, mapped: bool, v: nat)
    requires Spent(s, t, c, vs, 0) && Spent(t, u, c, if mapped then {v} else {}, 0)
    ensures Spent(s, u, c, vs + if mapped then {v} else {}, 0)
  {
    if mapped {
      SpentNext(s, t, u, c, vs, 0, v, 0);
    } else {
      assert Tables({}) == {} && vs + {} == vs;
      SpentNothing(s, t, u, c, vs);
    }
  }

  lemma ShareCount(s: State, t: State, u: State, p: Pid, c: Pid, v: nat, n: nat, ok: bool)
    requires v < n && SharedTo(s, t, p, c, v) && SamePages(s.refs, t.refs, p)
    requires if ok then Spent(t, u, c, if Leaf(p, v) in t.refs then {v} else {}, 0)
             else Leaf(p, v) in t.refs && |t.free| < Short(t.refs, c, v)
    ensures if ok then SharedTo(s, u, p, c, v + 1) else |s.free| < ShareNeeds(s.refs, p, c, n)
  {
    MappedNext(s.refs, t.refs, p, v);
    if ok {
      ShareSpent(s, t, u, c, MappedPages(s.refs, p, v), Leaf(p, v) in t.refs, v);
    } else {
      SpentNext(s, t, u, c, MappedPages(s.refs, p, v), 0, v, 0);
      ShareNeedsMore(s.refs, p, c, v + 1, n);
    }
  }

  lemma GrowCount(s: State, t: State, u: State, p: Pid, lo: nat, v: nat, hi: nat, ok: bool)
    requires v < hi && GrownTo(s, t, p, lo, v)
    requires if ok then Spent(t, u, p, {v}, 1) else |t.free| < Short(t.refs, p, v) + 1
    ensures if ok then GrownTo(s, u, p, lo, v + 1) else |s.free| < GrowNeeds(s.refs, p, lo, hi)
  {
    PagesNext(s.refs, p, lo, v);
    SpentNext(s, t, u, p, Range(lo, v), v - lo, v, 1);
    GrowNeedsMore(s.refs, p, lo, v + 1, hi);
  }

  lemma SharedNone(s: State, p: Pid, c: Pid, lo: nat)
    ensures SharedTo(s, s, p, c, 0) && GrownTo(s, s, p, lo, lo)
  {
    SpentNone(s, c);
    SpentNone(s, p);
    assert MappedPages(s.refs, p, 0) == {} && Range(lo, lo) == {};
  }

  lemma SpentNothing(s: State, t: State, u: State, p: Pid, vs: set<nat>)
    requires Spent(s, t, p, vs, 0) && Spent(t, u, p, {}, 0) && Tables({}) == {}
    ensures Spent(s, u, p, vs, 0)
  {
    forall q: Path ensures NodeAt(t.refs, u.refs, p, false, q) { assert NodeAt(t.refs, u.refs, p, q in Tables({}), q); }
    assert Lacking(t.refs, p, {}) == {};
    SpentElsewhere(s, t, u, p, vs, 0, 0);
  }

  predicate From(lo: nat, v: nat) {
    lo <= v
  }

  ghost function Range(lo: nat, hi: nat): set<nat> {
    set v: nat | v < hi && From(lo, v)
  }

  predicate IsMapped(r: Refs, p: Pid, v: nat) {
    Leaf(p, v) in r
  }

  /** The pages below n that are mapped. */
  ghost function MappedPages(r: Refs, p: Pid, n: nat): set<nat> {
    set v: nat | v < n && IsMapped(r, p, v)
  }

  lemma PagesNext(r: Refs, p: Pid, lo: nat, v: nat)
    ensures lo <= v ==> Range(lo, v + 1) == Range(lo, v) + {v}
    ensures MappedPages(r, p, v + 1) == MappedPages(r, p, v) + if Leaf(p, v) in r then {v} else {}
  {
    assert IsMapped(r, p, v) <==> Leaf(p, v) in r;
    assert From(lo, v) <==> lo <= v;
  }

  /** No kfree is in progress, and no leaf of a fork is still to be counted. */
  type Quiet = s: Consistent | s.limbo == {} && s.due == map[] ghost witness Empty()

  lemma QuietCounts(s: Quiet, a: nat)
    requires a < |s.refcnt|
    ensures s.refcnt[a] == |Owners(s.refs, a)|
  {
    assert CountAt(s.refs, s.due.Keys, s.refcnt, a);
    assert Owners(s.refs, a) == Holders(s.refs, s.due.Keys, a);
  }

  /** What the two pages above user memory are mapped to: the trampoline's code, or the page of a
      trapframe. */
  datatype Fixed = Trampoline | Trapframe(a: nat)

  class Vm {
    var s: Quiet
    /** The mappings above user memory, which own nothing. */
    var fixed: map<(Pid, nat), Fixed>

    /** kinit with n pages: freerange gives each page count 1 and passes it to kfree. */
    constructor (n: nat)
      ensures Initial(s) && |s.refcnt| == n && |s.free| == n && s.sz == map[] && fixed == map[]
    {
      fixed := map[];
      var free: seq<nat>, refcnt: seq<int> := [], seq(n, _ => 0);
      var a := 0;
      while a < n
        invariant 0 <= a <= n && |free| == a && |refcnt| == n
        invariant forall i :: 0 <= i < a ==> free[i] == a - 1 - i
        invariant forall i :: 0 <= i < n ==> refcnt[i] == 0
      {
        refcnt := refcnt[a := 1];
        refcnt := refcnt[a := refcnt[a] - 1];
        free := [a] + free;
        a := a + 1;
      }
      assert FreeOk(free, {}, refcnt) by {
        forall c: int | 0 <= c < n ensures c in free {
          assert free[n - 1 - c] == c;
        }
      }
      InitialInv(State(free, {}, refcnt, seq(n, _ => Filled(1)), map[], map[], map[]));
      s := State(free, {}, refcnt, seq(n, _ => Filled(1)), map[], map[], map[]);
    }

    /** kfree of the page behind a reference. */
    method Kfree(x: Ref)
      requires CanKfree(s, x)
      modifies `s
      ensures s.refs == old(s.refs) - {x} && s.sz == old(s.sz) && |old(s.free)| <= |s.free| <= |old(s.free)| + 1
      ensures if x.Leaf? then OnePage(old(s), s, x.p, x.v, LazyPage()) else SameMem(old(s), s)
    {
      StepKfree(s, x);
      s := DoKfree(s, x);
    }

    method Kalloc(p: Pid) returns (r: Option<nat>)
      modifies `s
      ensures SameMem(old(s), s) && s.sz == old(s.sz) && DataKept(old(s), s)
      ensures r == None <==> old(s.free) == []
      ensures r == None ==> s == old(s)
      ensures r.Some? ==> Took(old(s), s, p, r.value)
    {
      if s.free == [] {
        return None;
      }
      KallocReady(s, p);
      StepKalloc(s, p);
      r := Some(s.free[0]);
      s := DoKalloc(s, p);
    }

    /** kalloc followed by memset to zero. */
    method KallocZeroed(p: Pid) returns (r: Option<nat>)
      modifies `s
      ensures SameMem(old(s), s) && s.sz == old(s.sz) && DataKept(old(s), s)
      ensures r == None <==> old(s.free) == []
      ensures r == None ==> s == old(s)
      ensures r.Some? ==> Took(old(s), s, p, r.value) && s.data[r.value] == Filled(0)
    {
      r := Kalloc(p);
      if r.Some? {
        StepFreshWrite(s, p, r.value, Filled(0));
        s := DoZeroFill(s, r.value);
      }
    }

    /** The page-table page for v at one level, created if allowed and possible. */
    method Descend(p: Pid, v: nat, level: nat, alloc: bool) returns (ok: bool)
      requires 1 <= level <= 2 && v < MAXVPN && Node(p, PathAt(v, level + 1)) in s.refs
      modifies `s
      ensures ok <==> Node(p, PathAt(v, level)) in s.refs
      ensures Walked(old(s), s, p) && (!alloc ==> s == old(s))
      ensures alloc && !ok ==> s == old(s) && s.free == []
      ensures ok ==> Added(old(s), s, p, PathAt(v, level))
    {
      ok := Node(p, PathAt(v, level)) in s.refs;
      if ok { AddedNone(s, p, PathAt(v, level)); }
      if !ok && alloc {
        var r := KallocZeroed(p);
        if r.Some? {
          NodeAdded(old(s.refs), p, r.value, PathAt(v, level));
          NodeAddedOnly(old(s.refs), p, r.value, PathAt(v, level));
          StepAddNode(s, p, r.value, PathAt(v, level));
          s := DoAddNode(s, p, r.value, PathAt(v, level));
          ok := true;
        }
      }
    }

    /** One turn of walk's loop, which started from s0. */
    method WalkTurn(p: Pid, v: nat, level: nat, alloc: bool, ghost s0: Quiet) returns (ok: bool)
      requires 1 <= level <= 2 && v < MAXVPN && WalkedTo(s0, s, p, v, level)
      modifies `s
      ensures !alloc ==> s == old(s)
      ensures if ok then WalkedTo(s0, s, p, v, level - 1)
        else Walked(s0, s, p) && Node(p, LowPath(v)) !in s.refs
      ensures alloc && !ok ==> s.free == [] && |s0.free| < Short(s0.refs, p, v)
    {
      WalkStart(s0, p, v);
      ok := Descend(p, v, level, alloc);
      WalkedTrans(s0, old(s), s, p);
      if !ok {
        if level == 1 { AddedShort(s0, old(s), p, v); }
        NoTable(s, p, v, level);
      } else if level == 1 {
        WalkSpent(s0, old(s), s, p, v);
      }
    }

    /** walk: the table that holds the PTE of page v.  With alloc it succeeds exactly when there
        is memory for the tables that are missing. */
    method Walk(p: Pid, v: nat, alloc: bool) returns (ok: bool)
      requires v < MAXVPN && Node(p, Root) in s.refs
      modifies `s
      ensures ok <==> Node(p, LowPath(v)) in s.refs
      ensures Walked(old(s), s, p) && (!alloc ==> s == old(s)) && |s.free| <= |old(s.free)|
      ensures alloc ==> (ok <==> Short(old(s.refs), p, v) <= |old(s.free)|) && (!ok ==> s.free == [])
      ensures ok ==> Spent(old(s), s, p, {v}, 0)
    {
      var level := 2;
      while level > 0
        invariant 0 <= level <= 2 && WalkedTo(old(s), s, p, v, level) && (!alloc ==> s == old(s))
      {
        ok := WalkTurn(p, v, level, alloc, old(s));
        if !ok {
          return;
        }
        level := level - 1;
      }
      LackingOne(old(s.refs), p, v);
      ok := true;
    }

    /** mappages of one page.  It fails only when walk does, for want of memory. */
    method MapOne(p: Pid, v: nat, a: nat, perm: Pte) returns (ok: bool)
      requires v < TRAPFRAME && Node(p, Root) in s.refs && Leaf(p, v) !in s.refs
      requires Fresh(p, a) in s.refs && a < |s.data| && s.data[a] == Filled(0) && perm.ppn == a && !perm.cow
      requires perm.r
      modifies `s
      ensures ok ==> s.sz == old(s.sz) && Kept(old(s.refs), s.refs, p, {Leaf(p, v), Fresh(p, a)})
      ensures ok ==> Leaf(p, v) in s.refs && s.refs[Leaf(p, v)] == perm && Fresh(p, a) !in s.refs
      ensures ok ==> OnePage(old(s), s, p, v, SpecPage(Filled(0), perm.r, perm.w, perm.x, perm.u))
      ensures !ok ==> Walked(old(s), s, p) && s.free == [] && Node(p, LowPath(v)) !in s.refs
      ensures (ok <==> Short(old(s.refs), p, v) <= |old(s.free)|) && (ok ==> Spent(old(s), s, p, {v}, 0))
    {
      ok := Walk(p, v, true);
      if ok {
        ghost var t := s;
        assert SameAt(old(s.refs), s.refs, Fresh(p, a)) && SameAt(old(s.refs), s.refs, Leaf(p, v));
        StepMapPage(s, p, v, a, perm);
        s := DoMapPage(s, p, v, a, perm);
        MapKept(t.refs, p, v, a, perm);
        KeptTrans(old(s.refs), t.refs, s.refs, p, {}, {Leaf(p, v), Fresh(p, a)});
        NodesMapped(t.refs, p, v, a, perm);
        SpentElsewhere(old(s), t, s, p, {v}, 0, 0);
      }
    }

    /** Map a zero page, or give it back if there is no memory for page tables. */
    method MapOrFree(p: Pid, v: nat, a: nat, perm: Pte) returns (ok: bool)
      requires v < TRAPFRAME && Node(p, Root) in s.refs && Leaf(p, v) !in s.refs
      requires Fresh(p, a) in s.refs && a < |s.data| && s.data[a] == Filled(0) && perm.ppn == a && !perm.cow
      requires perm.r
      modifies `s
      ensures s.sz == old(s.sz) && Fresh(p, a) !in s.refs && (ok <==> Short(old(s.refs), p, v) <= |old(s.free)|)
      ensures ok ==> Leaf(p, v) in s.refs && s.refs[Leaf(p, v)] == perm && Spent(old(s), s, p, {v}, 0)
      ensures Kept(old(s.refs), s.refs, p, (if ok then {Leaf(p, v)} else {}) + {Fresh(p, a)})
      ensures if ok then OnePage(old(s), s, p, v, SpecPage(Filled(0), perm.r, perm.w, perm.x, perm.u))
        else SameMem(old(s), s)
      ensures !ok ==> |s.free| <= 1 && Node(p, LowPath(v)) !in s.refs
    {
      ok := MapOne(p, v, a, perm);
      assert {Leaf(p, v)} + {Fresh(p, a)} == {Leaf(p, v), Fresh(p, a)};
      if !ok {
        ghost var u := s;
        assert SameAt(old(s.refs), u.refs, Fresh(p, a));
        GivenBack(old(s.refs), u.refs, p, a);
        FreshIsPlain(s, p, a);
        Kfree(Fresh(p, a));
        SameMemTrans(old(s), u, s);
      }
    }

    /** Map a new zero page. */
    method MapZeroed(p: Pid, v: nat, w: bool, x: bool) returns (r: Option<nat>)
      requires v < TRAPFRAME && Node(p, Root) in s.refs && Leaf(p, v) !in s.refs
      modifies `s
      ensures s.sz == old(s.sz) && Kept(old(s.refs), s.refs, p, if r.Some? then {Leaf(p, v)} else {})
      ensures r.Some? ==> Leaf(p, v) in s.refs && s.refs[Leaf(p, v)] == Pte(r.value, true, w, x, true, false)
      ensures if r.Some? then OnePage(old(s), s, p, v, SpecPage(Filled(0), true, w, x, true)) else SameMem(old(s), s)
      ensures r == None <==> |old(s.free)| < Short(old(s.refs), p, v) + 1
      ensures r == None ==> |s.free| < Short(s.refs, p, v) + 1
      ensures |s.free| <= |old(s.free)| && (r.Some? ==> Spent(old(s), s, p, {v}, 1))
    {
      r := KallocZeroed(p);
      if r == None { return; }
      var a := r.value;
      ghost var t := s;
      NodesUntouched(old(s.refs), p, Fresh(p, a), Plain(a));
      ShortSame(old(s.refs), t.refs, p, v, {});
      TookKept(old(s.refs), p, a);
      var ok := MapOrFree(p, v, a, Pte(a, true, w, x, true, false));
      LazyKept(old(s.refs), t.refs, s.refs, p, if ok then {Leaf(p, v)} else {}, a);
      if ok {
        SpentAfter(old(s), t, s, p, {v}, 0, 1);
        OnePageTrans(old(s), t, s, p, v, SpecPage(Filled(0), true, w, x, true));
      } else {
        SameMemTrans(old(s), t, s);
        r := None;
      }
    }

    /** vmfault, page not mapped: a zero page is mapped where zeroes were seen before. */
    method LazyFault(p: Pid, v: nat) returns (r: Option<nat>)
      requires v < TRAPFRAME && Node(p, Root) in s.refs && Leaf(p, v) !in s.refs
      modifies `s
      ensures Faulted(old(s), s, p, v)
      ensures r.Some? ==> Leaf(p, v) in s.refs && s.refs[Leaf(p, v)] == LazyPte(r.value)
      ensures r == None ==> SameAt(old(s.refs), s.refs, Leaf(p, v)) && |s.free| < Short(s.refs, p, v) + 1
      ensures (r == None <==> |old(s.free)| < Short(old(s.refs), p, v) + 1) && |s.free| <= |old(s.free)|
    {
      r := MapZeroed(p, v, true, false);
    }

    /** vmfault, copy-on-write: memmove to a new page, point the PTE at it, kfree the old. */
    method CowFault(p: Pid, v: nat) returns (r: Option<nat>)
      requires Leaf(p, v) in s.refs && s.refs[Leaf(p, v)].cow && Stale(p, s.refs[Leaf(p, v)].ppn) !in s.refs
      modifies `s
      ensures SameMem(old(s), s) && s.sz == old(s.sz)
      ensures r == None <==> old(s.free) == []
      ensures r == None ==> s == old(s)
      ensures r.Some? ==> s.refs == old(s.refs)[Leaf(p, v) := Privatised(old(s.refs[Leaf(p, v)]), r.value)]
      ensures |s.free| <= |old(s.free)|
    {
      r := Kalloc(p);
      if r.Some? {
        var a, pa := r.value, s.refs[Leaf(p, v)].ppn;
        LeafInRange(s, p, v);
        CowRefs(old(s.refs), p, v, a);
        StepFreshWrite(s, p, a, s.data[pa]);
        s := DoCopyInto(s, p, v, a);
        StepCowSwap(s, p, v, a);
        s := DoCowSwap(s, p, v, a);
        Kfree(Stale(p, pa));
      }
    }

    /** vmfault for an address in page v; below says that it is below the process size. */
    method PageFault(p: Pid, v: nat, below: bool, read: bool) returns (r: Option<nat>)
      requires Ready(s, p) && (below ==> v < TRAPFRAME)
      modifies `s
      ensures Faulted(old(s), s, p, v)
      ensures r.Some? ==> below && FaultPte(old(s.refs), s.refs, p, v, r.value)
      ensures r.Some? && Leaf(p, v) in old(s.refs) ==> !read && old(s.refs[Leaf(p, v)]).cow
      ensures r == None ==> SameAt(old(s.refs), s.refs, Leaf(p, v))
      ensures r.Some? <==> below && !Unfaultable(old(s.refs), p, v, read) && Needs(old(s.refs), p, v) <= |old(s.free)|
      ensures r == None && below && !Unfaultable(old(s.refs), p, v, read) ==> |s.free| < Needs(s.refs, p, v)
    {
      r := None;
      if !below { return; }
      if Leaf(p, v) !in s.refs {
        r := LazyFault(p, v);
      } else if !read && s.refs[Leaf(p, v)].cow {
        r := CowFault(p, v);
      }
    }

    /** vmfault: nothing changes for anybody; where it succeeds, p has a writable page of its
        own.  None is the return value 0. */
    method VmFault(p: Pid, va: nat, read: bool) returns (r: Option<nat>)
      requires Ready(s, p)
      modifies `s
      ensures Faulted(old(s), s, p, PageNo(va))
      ensures r.Some? ==> va < s.sz[p] && FaultPte(old(s.refs), s.refs, p, PageNo(va), r.value)
      ensures r == None ==> SameAt(old(s.refs), s.refs, Leaf(p, PageNo(va)))
      ensures r.Some? <==>
        va < s.sz[p] && !Unfaultable(old(s.refs), p, PageNo(va), read)
        && Needs(old(s.refs), p, PageNo(va)) <= |old(s.free)|
    {
      BelowSize(va, s.sz[p]);
      r := PageFault(p, PageNo(va), va < s.sz[p], read);
    }

    method UnmapOne(p: Pid, v: nat)
      modifies `s
      ensures OnePage(old(s), s, p, v, LazyPage()) && s.sz == old(s.sz)
      ensures s.refs == old(s.refs) - {Leaf(p, v)}
    {
      if Leaf(p, v) in s.refs {
        LeafInRange(s, p, v);
        Kfree(Leaf(p, v));
      }
    }

    /** uvmunmap with do_free: the pages of [lo, hi) go; whoever shares them keeps them. */
    method UvmUnmap(p: Pid, lo: nat, hi: nat)
      requires lo <= hi
      modifies `s
      ensures Dropped(old(s), s, p, lo, hi) && s.sz == old(s.sz)
      ensures s.refs == old(s.refs) - Leaves(p, lo, hi)
    {
      var v := lo;
      while v < hi
        invariant lo <= v <= hi && s.sz == old(s.sz)
        invariant Dropped(old(s), s, p, lo, v)
        invariant s.refs == old(s.refs) - Leaves(p, lo, v)
      {
        ghost var t := s;
        LeavesNext(old(s.refs), p, lo, v);
        UnmapOne(p, v);
        DroppedNext(old(s), t, s, p, lo, v);
        v := v + 1;
      }
    }

    /** PTE_W off and PTE_COW on, where PTE_W was on. */
    method Freeze(p: Pid, v: nat)
      requires Leaf(p, v) in s.refs
      modifies `s
      ensures s.sz == old(s.sz) && s.free == old(s.free) && SameMem(old(s), s)
      ensures s.refs == old(s.refs)[Leaf(p, v) := Cowed(old(s.refs[Leaf(p, v)]))]
    {
      if s.refs[Leaf(p, v)].w {
        StepMarkCow(s, p, v);
        s := DoMarkCow(s, p, v);
      }
    }

    /** uvmcopy for one mapped page of the parent. */
    method CopyOne(p: Pid, c: Pid, v: nat) returns (ok: bool)
      requires p != c && v < TRAPFRAME && Node(c, Root) in s.refs && Leaf(p, v) in s.refs && Leaf(c, v) !in s.refs
      modifies `s
      ensures s.sz == old(s.sz) && CopyFrame(old(s.refs), s.refs, p, c, v)
      ensures (Leaf(c, v) in s.refs <==> ok) && (ok ==> LeafShared(s.refs, p, c, v))
      ensures if ok then OnePage(old(s), s, c, v, old(PageOf(s.refs, s.data, p, v))) else SameMem(old(s), s)
      ensures (ok <==> Short(old(s.refs), c, v) <= |old(s.free)|) && (ok ==> Spent(old(s), s, c, {v}, 0))
    {
      Freeze(p, v);
      ghost var t := s;
      NodesUntouched(old(s.refs), c, Leaf(p, v), t.refs[Leaf(p, v)]);
      ShortSame(old(s.refs), t.refs, c, v, {});
      ok := Walk(c, v, true);
      CopyKept(old(s.refs), t.refs, s.refs, p, c, v);
      if ok {
        ghost var u := s;
        LeafInRange(s, p, v);
        StepShare(s, p, c, v);
        s := DoShare(s, p, c, v);
        NodesUntouched(u.refs, c, Leaf(c, v), u.refs[Leaf(p, v)]);
        SpentAfter(old(s), t, u, c, {v}, 0, 0);
        SpentElsewhere(old(s), u, s, c, {v}, 0, 0);
      }
    }

    /** One turn of uvmcopy's loop.  A page that the parent has not touched yet reads as zero
        in the child, too. */
    method CopyPage(p: Pid, c: Pid, v: nat) returns (ok: bool)
      requires p != c && v < TRAPFRAME && Node(c, Root) in s.refs && Leaf(c, v) !in s.refs
      modifies `s
      ensures s.sz == old(s.sz) && Kept(old(s.refs), s.refs, c, {Leaf(p, v), Leaf(c, v)})
      ensures SamePages(old(s.refs), s.refs, p)
      ensures if ok then OnePage(old(s), s, c, v, old(PageOf(s.refs, s.data, p, v))) else SameMem(old(s), s)
      ensures !ok ==> Leaf(c, v) !in s.refs && Leaf(p, v) in old(s.refs) && |old(s.free)| < Short(old(s.refs), c, v)
      ensures ok ==> LeafShared(s.refs, p, c, v)
      ensures ok ==> Spent(old(s), s, c, if Leaf(p, v) in old(s.refs) then {v} else {}, 0)
    {
      ok := true;
      SpentNone(s, c);
      if Leaf(p, v) in s.refs {
        ok := CopyOne(p, c, v);
        CopyFramePages(old(s.refs), s.refs, p, c, v);
      }
    }

    /** A turn as the loop sees it, which started from s0. */
    method ShareTurn(p: Pid, c: Pid, v: nat, ghost s0: State, ghost n: nat) returns (ok: bool)
      requires p != c && v < n <= TRAPFRAME && Sharing(s0, s, p, c, v) && SharedTo(s0, s, p, c, v)
      modifies `s
      ensures s.sz == old(s.sz) && Sharing(s0, s, p, c, if ok then v + 1 else v)
      ensures if ok then SharedTo(s0, s, p, c, v + 1) else |s0.free| < ShareNeeds(s0.refs, p, c, n)
    {
      ok := CopyPage(p, c, v);
      ShareCount(s0, old(s), s, p, c, v, n, ok);
      SharingNext(s0, old(s), s, p, c, v, ok);
    }

    /** uvmcopy's loop: v is n, or the page for which memory ran out. */
    method ShareAll(p: Pid, c: Pid, n: nat) returns (v: nat)
      requires p != c && n <= TRAPFRAME && Node(c, Root) in s.refs && NoLeaves(s.refs, c, 0)
      modifies `s
      ensures v <= n && s.sz == old(s.sz) && Sharing(old(s), s, p, c, v)
      ensures v == n <==> ShareNeeds(old(s.refs), p, c, n) <= |old(s.free)|
    {
      v := 0;
      SharedNone(s, p, c, 0);
      while v < n
        invariant 0 <= v <= n && s.sz == old(s.sz) && Sharing(old(s), s, p, c, v)
        invariant SharedTo(old(s), s, p, c, v)
      {
        var ok := ShareTurn(p, c, v, old(s), n);
        if !ok {
          return;
        }
        v := v + 1;
      }
      SharedEnough(old(s), s, p, c, n);
    }

    /** uvmcopy: the child sees what the parent sees, with no page copied.  It succeeds exactly
        when there is memory for the tables that the child lacks.  If not, the child is left
        without pages and the parent does not notice. */
    method UvmCopy(p: Pid, c: Pid, n: nat) returns (ok: bool)
      requires p != c && n <= TRAPFRAME && Node(c, Root) in s.refs && NoLeaves(s.refs, c, 0)
      modifies `s
      ensures s.sz == old(s.sz) && CopyState(old(s.refs), s.refs, p, c)
      ensures if ok then Copied(old(s), s, p, c, n) else SameMem(old(s), s)
      ensures NoLeaves(s.refs, c, if ok then n else 0) && (ok ==> SharedUpTo(s.refs, p, c, n))
      ensures ok <==> ShareNeeds(old(s.refs), p, c, n) <= |old(s.free)|
    {
      var v := ShareAll(p, c, n);
      ok := v == n;
      if !ok {
        ghost var t := s;
        CopyUndone(old(s.refs), s.refs, p, c, v);
        UvmUnmap(c, 0, v);
        CopyUnseen(old(s), t, s, p, c, v);
      }
    }

    /** One turn of uvmalloc's loop, which started from s0 at page lo. */
    method AllocTurn(p: Pid, v: nat, w: bool, x: bool, ghost s0: State, ghost lo: nat, ghost hi: nat)
      returns (ok: bool, next: nat)
      requires v < TRAPFRAME && Growing(s0, s, p, lo, v, SpecPage(Filled(0), true, w, x, true))
      requires v < hi && GrownTo(s0, s, p, lo, v)
      modifies `s
      ensures s.sz == old(s.sz) && next == if ok then v + 1 else v
      ensures if ok then GrownTo(s0, s, p, lo, next) else |s0.free| < GrowNeeds(s0.refs, p, lo, hi)
      ensures Growing(s0, s, p, lo, next, SpecPage(Filled(0), true, w, x, true))
    {
      var r := MapZeroed(p, v, w, x);
      ok := r.Some?;
      next := if ok then v + 1 else v;
      GrowCount(s0, old(s), s, p, lo, v, hi, ok);
      GrowNext(s0, old(s), s, p, lo, v, SpecPage(Filled(0), true, w, x, true), ok);
    }

    /** uvmalloc's loop: v is hi, or the page for which memory ran out. */
    method AllocAll(p: Pid, lo: nat, hi: nat, w: bool, x: bool) returns (v: nat)
      requires lo <= hi <= TRAPFRAME && Node(p, Root) in s.refs && NoLeaves(s.refs, p, lo)
      modifies `s
      ensures lo <= v <= hi && s.sz == old(s.sz) && Growing(old(s), s, p, lo, v, SpecPage(Filled(0), true, w, x, true))
      ensures v == hi <==> GrowNeeds(old(s.refs), p, lo, hi) <= |old(s.free)|
      ensures v == hi ==> |s.free| + GrowNeeds(old(s.refs), p, lo, hi) == |old(s.free)|
    {
      v := lo;
      SharedNone(s, p, p, lo);
      while v < hi
        invariant lo <= v <= hi && s.sz == old(s.sz) && GrownTo(old(s), s, p, lo, v)
        invariant Growing(old(s), s, p, lo, v, SpecPage(Filled(0), true, w, x, true))
      {
        var ok;
        ok, v := AllocTurn(p, v, w, x, old(s), lo, hi);
        if !ok {
          return;
        }
      }
      GrownEnough(old(s), s, p, lo, hi);
    }

    /** uvmalloc from page lo to page hi.  It succeeds exactly when there is memory for these
        pages and for the tables they lack; a failure leaves no trace but page-table pages. */
    method UvmAlloc(p: Pid, lo: nat, hi: nat, w: bool, x: bool) returns (ok: bool)
      requires lo <= hi <= TRAPFRAME && Node(p, Root) in s.refs && NoLeaves(s.refs, p, lo)
      modifies `s
      ensures s.sz == old(s.sz)
      ensures ok ==> Growing(old(s), s, p, lo, hi, SpecPage(Filled(0), true, w, x, true))
      ensures !ok ==> SameMem(old(s), s) && Kept(old(s.refs), s.refs, p, {})
      ensures ok <==> GrowNeeds(old(s.refs), p, lo, hi) <= |old(s.free)|
      ensures ok ==> |s.free| + GrowNeeds(old(s.refs), p, lo, hi) == |old(s.free)|
    {
      var v := AllocAll(p, lo, hi, w, x);
      ok := v == hi;
      if !ok {
        ghost var t := s;
        UvmUnmap(p, lo, v);
        GrowUndone(old(s), t, s, p, lo, v, SpecPage(Filled(0), true, w, x, true));
      }
    }
  }
}
