/** The guard page below the user stack (uvmclear of kernel/vm.c): what a fork does to it. */
module GuardPage {
  import opened Basics
  import opened CowMemory
  import opened VmCode
  import opened UserMemory
  import opened ProcMemory

  /** A page that is there, that its process must not touch, and that is not read-only. */
  predicate Guard(s: State, p: Pid, v: nat) {
    p in s.sz && v * 4096 < s.sz[p] && Leaf(p, v) in s.refs && s.refs[Leaf(p, v)].w && !s.refs[Leaf(p, v)].u
  }

  /** Neither copyout nor copyin goes through page v. */
  predicate Shut(s: State, p: Pid, v: nat) {
    p in s.sz && !CopyoutWrites(s, p, v) && !CopyinReads(s, p, v)
  }

  /** Both do, although the process itself must not touch the page. */
  predicate Open(s: State, p: Pid, v: nat) {
    && p in s.sz && CopyoutWrites(s, p, v) && CopyinReads(s, p, v)
    && !UserWritable(s, p, v) && !UserReadable(s, p, v)
  }

  lemma TwoCows(s: Consistent, p: Pid, c: Pid, v: nat)
    requires p != c && Leaf(p, v) in s.refs && LeafShared(s.refs, p, c, v)
    ensures !s.refs[Leaf(p, v)].w && s.refs[Leaf(c, v)] == s.refs[Leaf(p, v)]
    ensures s.refs[Leaf(p, v)].ppn < |s.data|
  {
    LeafInRange(s, p, v);
  }

  /** A fork opens the guard page to copyout and copyin, in the parent and in the child. */
  lemma ForkOpensGuard(s: Consistent, t: Consistent, p: Pid, c: Pid, v: nat)
    requires p != c && Guard(s, p, v) && ForkKept(s.refs, t.refs, p, c) && t.sz == s.sz[c := s.sz[p]]
    requires SharedUpTo(t.refs, p, c, PagesOf(s.sz[p]))
    ensures Shut(s, p, v) && Open(t, p, v) && Open(t, c, v)
  {
    LeafInRange(s, p, v);
    PageBelowSize(v, s.sz[p]);
    TwoCows(t, p, c, v);
  }

  /** uvmclear. */
  method UvmClear(m: Vm, p: Pid, v: nat)
    requires Leaf(p, v) in m.s.refs
    modifies m`s
    ensures m.s.sz == old(m.s.sz) && m.s.free == old(m.s.free)
    ensures m.s.refs == old(m.s.refs)[Leaf(p, v) := old(m.s.refs)[Leaf(p, v)].(u := false)]
    ensures OnePage(old(m.s), m.s, p, v, old(PageOf(m.s.refs, m.s.data, p, v)).(u := false))
  {
    StepProtect(m.s, p, v);
    m.s := DoProtect(m.s, p, v);
  }

  lemma TablesOfFirst()
    ensures Tables({0}) == {Mid(0), Low(0, 0)} && Tables({}) == {}
  {
    assert Px2(0) == 0 && Px1(0) == 0;
  }

  lemma FirstPageNeeds(r: Refs, p: Pid)
    ensures GrowNeeds(r, p, 0, 1) <= 3
  {
    TablesOfFirst();
    assert Range(0, 1) == {0};
    SubsetSize(Lacking(r, p, {0}), {Mid(0), Low(0, 0)});
  }

  lemma ForkOfFirst(r: Refs, p: Pid)
    ensures ForkNeeds(r, p, 1) <= 6
  {
    TablesOfFirst();
    var mapped := MappedPages(r, p, 1);
    assert mapped == {0} || mapped == {} by {
      assert forall v :: v in mapped ==> v == 0;
    }
    SubsetSize(Tables(mapped) - TablesOf(TRAMPOLINE), {Mid(0), Low(0, 0)});
  }

  /** Process 1 has n bytes and process 2 none. */
  predicate Sizes(sz: map<Pid, nat>, n: nat) {
    1 in sz && sz[1] == n && 2 in sz && sz[2] == 0
  }

  /** A process without memory. */
  method Begin(n: nat) returns (m: Vm, tf: nat)
    requires n >= 13
    ensures fresh(m) && |m.s.free| == n - 4 && Sizes(m.s.sz, 0)
    ensures Infant(m.s.refs, 1, tf) && Unused(m.s, 2) && NoFixed(m.fixed, 2)
  {
    m := new Vm(n);
    m.s := DoSetSize(DoSetSize(m.s, 1, 0), 2, 0);
    var r := AllocProc(m, 1);
    tf := r.value;
  }

  /** It gets one page. */
  method GivePage(m: Vm, tf: nat)
    requires |m.s.free| >= 9 && Sizes(m.s.sz, 0) && Infant(m.s.refs, 1, tf) && Unused(m.s, 2)
    modifies m`s
    ensures |m.s.free| >= 6 && m.s.sz == old(m.s.sz) && Unused(m.s, 2) && Tabled(m.s.refs, 1)
    ensures NoLeaves(m.s.refs, 1, 1) && MappedAs(m.s.refs, 1, 0, SpecPage(Filled(0), true, true, false, true))
  {
    FirstPageNeeds(m.s.refs, 1);
    var ok := m.UvmAlloc(1, 0, 1, true, false);
    Prepared(old(m.s), m.s, tf);
  }

  /** uvmclear makes it a guard page. */
  method Prepare(m: Vm, tf: nat)
    requires |m.s.free| >= 9 && Sizes(m.s.sz, 0) && Infant(m.s.refs, 1, tf) && Unused(m.s, 2)
    modifies m`s
    ensures |m.s.free| >= 6 && Sizes(m.s.sz, 4096) && Guard(m.s, 1, 0) && Unused(m.s, 2)
    ensures Ready(m.s, 1) && NoLeaves(m.s.refs, 1, 1)
  {
    GivePage(m, tf);
    UvmClear(m, 1, 0);
    m.s := DoSetSize(m.s, 1, 4096);
  }

  lemma Prepared(s: State, t: State, tf: nat)
    requires Infant(s.refs, 1, tf) && Unused(s, 2) && t.sz == s.sz
    requires Growing(s, t, 1, 0, 1, SpecPage(Filled(0), true, true, false, true))
    ensures MappedAs(t.refs, 1, 0, SpecPage(Filled(0), true, true, false, true)) && Tabled(t.refs, 1)
    ensures Unused(t, 2) && NoLeaves(t.refs, 1, 1)
  {
    forall x | x in t.refs ensures x.p != 2 { assert x.p == 2 ==> SameAt(s.refs, t.refs, x); }
    forall a ensures Stale(1, a) !in t.refs { assert SameAt(s.refs, t.refs, Stale(1, a)); }
  }

  /** A process of one page, all of it guard page, and its fork. */
  method Demonstrate(n: nat) returns (m: Vm)
    requires n >= 13
    ensures Open(m.s, 1, 0) && Open(m.s, 2, 0)
  {
    var tf;
    m, tf := Begin(n);
    Prepare(m, tf);
    ForkOfFirst(m.s.refs, 1);
    ghost var s := m.s;
    var r := Fork(m, 1, 2);
    ForkOpensGuard(s, m.s, 1, 2, 0);
  }
}
