/** The page tables as words (PageTable) and as references (CowMemory, ProcMemory) are the same
  thing: where the one allocates and frees table pages, so does the other. */
module TableRefinement {
  import opened CowMemory
  import opened VmCode
  import PM = ProcMemory
  import PT = PageTable

  predicate FreeAt(a: seq<nat>, b: seq<nat>, x: nat) {
    x in a <==> x in b
  }

  /** The same pages are free. */
  ghost predicate SameFree(a: seq<nat>, b: seq<nat>) {
    forall x: nat :: FreeAt(a, b, x)
  }

  /** The words of p's page table and the free list are those of the machine. */
  ghost predicate Same(s: PT.Space, m: State, p: Pid) {
    PT.Represents(s, m.refs, p) && SameFree(s.free, m.free)
  }

  // ---------------------------------------------------------------- a table is added

  /** kalloc, memset and the entry that walk writes, as the machine has them. */
  function AddTable(m: State, p: Pid, q: Path): State
    requires CanKalloc(m, p)
  {
    DoAddNode(DoZeroFill(DoKalloc(m, p), m.free[0]), p, m.free[0], q)
  }

  lemma GrownSame(s: PT.Consistent, m: Consistent, p: Pid, q: Path, i: nat)
    requires PT.Represents(s, m.refs, p) && s.free == m.free && PT.CanGrow(s, q, i) && CanKalloc(m, p)
    ensures PT.Represents(PT.Grown(s, q, i), AddTable(m, p, Child(q, i)).refs, p)
    ensures PT.Grown(s, q, i).free == AddTable(m, p, Child(q, i)).free
  {
    PT.GrownRepresents(s, m.refs, p, q, i);
    var a, c := m.free[0], Child(q, i);
    assert (m.refs[Fresh(p, a) := Plain(a)] - {Fresh(p, a)})[Node(p, c) := Plain(a)] == m.refs[Node(p, c) := Plain(a)];
  }

  // ---------------------------------------------------------------- tables are freed

  lemma FreedPath(s: PT.Space, t: PT.Space, m: Refs, u: Refs, p: Pid, q: Path, c: Path)
    requires PT.Inv(s, Root) && PT.NodeMatches(s.at, m, p, c) && PT.PathLeft(s, t, PT.Below(c, q), c)
    requires PM.Pruned(m, u, p, q, ENTRIES, true)
    ensures PT.NodeMatches(t.at, u, p, c)
  {
    assert PT.PathOk(s.mem, s.at, s.own, c);
    if c.Low? { assert PT.PathOk(s.mem, s.at, s.own, Mid(c.j2)); }
    var x := Node(p, c);
    assert x !in u || SameAt(m, u, x);
  }

  lemma FreedFlat(s: PT.Space, t: PT.Space, m: Refs, u: Refs, p: Pid, q: Path, v: nat)
    requires PT.Inv(s, Root) && PT.FlatMatches(s, m, p, v) && PT.NoLeaves(s.mem, s.at) && PT.Freed(s, t, q)
    requires PM.Pruned(m, u, p, q, ENTRIES, true)
    ensures PT.FlatMatches(t, u, p, v)
  {
    var c := LowPath(v);
    assert PT.PathOk(s.mem, s.at, s.own, c) && PT.PathLeft(s, t, PT.Below(c, q), c);
    assert PT.LeafFree(s.mem, s.at, c, Px0(v));
    if c in t.at {
      assert PT.WordsKept(s, t, q, s.at[c]);
    }
    assert SameAt(m, u, Leaf(p, v));
  }

  /** A page is free in the machine exactly when nobody refers to it. */
  lemma FreeIsUnowned(m: Quiet, a: nat)
    ensures a in m.free <==> a < |m.refcnt| && Owners(m.refs, a) == {}
  {
    if a < |m.refcnt| { QuietCounts(m, a); }
  }

  /** Tables that are left were there before. */
  lemma OwnLeft(s: PT.Space, t: PT.Space, q: Path, a: nat)
    requires PT.Inv(s, Root) && PT.Freed(s, t, q)
    ensures a in t.own ==> a in s.own && t.own[a] == s.own[a] && !PT.Below(s.own[a], q) && s.own[a] in t.at
  {
    if a in t.own {
      var c := t.own[a];
      assert PT.OwnOk(t.at, t.own, a) && PT.PathLeft(s, t, PT.Below(c, q), c) && PT.PathOk(s.mem, s.at, s.own, c);
    }
  }

  lemma FreedPage(s: PT.Space, t: PT.Space, m: Quiet, u: Quiet, p: Pid, q: Path, a: nat)
    requires PT.Inv(s, Root) && Same(s, m, p) && PT.Freed(s, t, q) && |u.refcnt| == |m.refcnt|
    requires PM.Pruned(m.refs, u.refs, p, q, ENTRIES, true)
    ensures FreeAt(t.free, u.free, a)
  {
    FreeIsUnowned(m, a);
    FreeIsUnowned(u, a);
    OwnLeft(s, t, q, a);
    assert FreeAt(s.free, m.free, a) && PT.PageKept(s, t, a) && PT.OwnOk(s.at, s.own, a) && PT.OwnOk(t.at, t.own, a);
    if a in s.own {
      OwnedFreed(s, t, m, u, p, q, a);
    } else {
      UnownedFreed(s, m, u, p, q, a);
    }
  }

  /** A page of the table: it goes to the free list exactly when its table goes. */
  lemma OwnedFreed(s: PT.Space, t: PT.Space, m: Quiet, u: Quiet, p: Pid, q: Path, a: nat)
    requires PT.Inv(s, Root) && Same(s, m, p) && PT.Freed(s, t, q) && |u.refcnt| == |m.refcnt| && a in s.own
    requires PM.Pruned(m.refs, u.refs, p, q, ENTRIES, true)
    ensures a in t.free <==> a in u.free
  {
    var c := s.own[a];
    OwnLeft(s, t, q, a);
    assert PT.OwnOk(s.at, s.own, a) && PT.NodeMatches(s.at, m.refs, p, c) && PT.PathLeft(s, t, PT.Below(c, q), c);
    FreedPath(s, t, m.refs, u.refs, p, q, c);
    var x := Node(p, c);
    AloneAt(m, x);
    assert Owners(m.refs, a) == {x};
    FreeIsUnowned(u, a);
    forall y | y in Owners(u.refs, a) ensures y == x { assert SameAt(m.refs, u.refs, y); }
    assert PT.PageKept(s, t, a) && PT.OwnOk(t.at, t.own, a);
    if c in t.at {
      assert PT.PathOk(t.mem, t.at, t.own, c) && x in Owners(u.refs, a);
      NotBoth(t, a);
    } else {
      assert Owners(u.refs, a) == {};
    }
  }

  lemma NotBoth(t: PT.Space, a: nat)
    requires PT.FreeOk(t.mem, t.free, t.own) && a in t.own
    ensures a !in t.free
  {
    forall k: nat | k < |t.free| ensures t.free[k] != a { assert PT.FreePage(t.mem, t.free, t.own, k); }
  }

  /** Any other page is free exactly when it was. */
  lemma UnownedFreed(s: PT.Space, m: Quiet, u: Quiet, p: Pid, q: Path, a: nat)
    requires PT.Inv(s, Root) && Same(s, m, p) && |u.refcnt| == |m.refcnt| && a !in s.own
    requires PM.Pruned(m.refs, u.refs, p, q, ENTRIES, true)
    ensures a in u.free <==> a in m.free
  {
    FreeIsUnowned(m, a);
    FreeIsUnowned(u, a);
    forall y: Ref ensures y in Owners(u.refs, a) <==> y in Owners(m.refs, a) {
      if y.Node? && y.p == p {
        assert PT.NodeMatches(s.at, m.refs, p, y.path) && PT.PathOk(s.mem, s.at, s.own, y.path);
      } else {
        assert SameAt(m.refs, u.refs, y);
      }
    }
  }

  /** freewalk on words and freewalk on references free the same pages and leave the same tables. */
  lemma FreewalksAgree(s: PT.Space, t: PT.Space, m: Quiet, u: Quiet, p: Pid, q: Path)
    requires PT.Inv(s, Root) && Same(s, m, p) && PT.NoLeaves(s.mem, s.at) && PT.Freed(s, t, q)
    requires |u.refcnt| == |m.refcnt|
    requires PM.Pruned(m.refs, u.refs, p, q, ENTRIES, true)
    ensures Same(t, u, p)
  {
    forall c: Path ensures PT.NodeMatches(t.at, u.refs, p, c) {
      assert PT.NodeMatches(s.at, m.refs, p, c) && PT.PathLeft(s, t, PT.Below(c, q), c);
      FreedPath(s, t, m.refs, u.refs, p, q, c);
    }
    forall v: nat ensures PT.FlatMatches(t, u.refs, p, v) {
      assert PT.FlatMatches(s, m.refs, p, v);
      FreedFlat(s, t, m.refs, u.refs, p, q, v);
    }
    forall a: nat ensures FreeAt(t.free, u.free, a) { FreedPage(s, t, m, u, p, q, a); }
  }
}
