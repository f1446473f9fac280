/** What user programs and system calls do to user memory: loads and stores, and copyin and
  copyout of kernel/vm.c. */
module UserMemory {
  import opened Basics
  import opened CowMemory
  import opened VmCode

  function Splice(b: Page, off: nat, src: seq<nat>): Page
    requires off + |src| <= PGSIZE
  {
    b[..off] + src + b[off + |src|..]
  }

  lemma PokeSplice(b: Page, off: nat, src: seq<nat>, i: nat)
    requires off + |src| <= PGSIZE && i < |src|
    ensures Splice(b, off, src[..i])[off + i := src[i]] == Splice(b, off, src[..i + 1])
  {
  }

  lemma SpliceNone(b: Page, off: nat)
    requires off <= PGSIZE
    ensures Splice(b, off, []) == b
  {
  }

  /** One byte of memmove, which started from s0 when the page was page. */
  method MoveByte(m: Vm, p: Pid, v: nat, off: nat, src: seq<nat>, i: nat, ghost s0: State, ghost page: SpecPage)
    requires off + |src| <= PGSIZE && i < |src| && Leaf(p, v) in m.s.refs && m.s.refs[Leaf(p, v)].w
    requires OnePage(s0, m.s, p, v, page.(bytes := Splice(page.bytes, off, src[..i])))
    modifies m`s
    ensures m.s == old(m.s).(data := m.s.data)
    ensures OnePage(s0, m.s, p, v, page.(bytes := Splice(page.bytes, off, src[..i + 1])))
  {
    LeafInRange(m.s, p, v);
    StepWrite(m.s, p, v, off + i, src[i]);
    m.s := DoWrite(m.s, p, v, off + i, src[i]);
    PokeSplice(page.bytes, off, src, i);
    OnePageTrans(s0, old(m.s), m.s, p, v, page.(bytes := Splice(page.bytes, off, src[..i + 1])));
  }

  /** memmove into page v of p, through a writable PTE. */
  method Memmove(m: Vm, p: Pid, v: nat, off: nat, src: seq<nat>)
    requires off + |src| <= PGSIZE && Leaf(p, v) in m.s.refs && m.s.refs[Leaf(p, v)].w
    modifies m`s
    ensures m.s == old(m.s).(data := m.s.data)
    ensures var page := old(PageOf(m.s.refs, m.s.data, p, v));
      OnePage(old(m.s), m.s, p, v, page.(bytes := Splice(page.bytes, off, src)))
  {
    ghost var page := PageOf(m.s.refs, m.s.data, p, v);
    var i := 0;
    SpliceNone(page.bytes, off);
    while i < |src|
      invariant 0 <= i <= |src| && m.s == old(m.s).(data := m.s.data)
      invariant OnePage(old(m.s), m.s, p, v, page.(bytes := Splice(page.bytes, off, src[..i])))
    {
      MoveByte(m, p, v, off, src, i, old(m.s), page);
      i := i + 1;
    }
    assert src[..i] == src;
  }

  // ---------------------------------------------------------------- copyout and copyin

  /** The exact condition under which copyout writes page v, memory permitting.  A mapped page
      without PTE_U also reaches vmfault, because walkaddr returns 0 for it. */
  predicate CopyoutWrites(s: State, p: Pid, v: nat)
    requires p in s.sz
  {
    if Leaf(p, v) in s.refs then
      var t := s.refs[Leaf(p, v)];
      if t.cow then v * 4096 < s.sz[p] else t.u && t.w
    else v * 4096 < s.sz[p]
  }

  lemma ReadyKept(s: State, t: State, p: Pid, xs: set<Ref>)
    requires Ready(s, p) && t.sz == s.sz && Kept(s.refs, t.refs, p, xs) && forall x :: x in xs ==> x.Leaf?
    ensures Ready(t, p)
  {
    assert SameAt(s.refs, t.refs, Node(p, Root));
    assert forall a :: SameAt(s.refs, t.refs, Stale(p, a));
  }

  lemma PageBelowSize(v: nat, sz: nat)
    ensures v * 4096 < sz ==> v < PagesOf(sz)
  {
  }

  /** There is not enough memory for copyout or copyin to go through page v. */
  predicate Lacks(s: State, p: Pid, out: bool, v: nat) {
    |s.free| < if !out && Leaf(p, v) in s.refs && s.refs[Leaf(p, v)].u then 0 else Needs(s.refs, p, v)
  }

  /** copyout's steps before the memmove: afterwards the PTE is writable. */
  method MakeWritable(m: Vm, p: Pid, v: nat) returns (ok: bool)
    requires Ready(m.s, p)
    modifies m`s
    ensures Faulted(old(m.s), m.s, p, v)
    ensures ok ==> Leaf(p, v) in m.s.refs && m.s.refs[Leaf(p, v)].w
    ensures ok <==> CopyoutWrites(old(m.s), p, v) && Needs(old(m.s.refs), p, v) <= |old(m.s.free)|
    ensures !ok ==> Lacks(m.s, p, true, v) || !CopyoutWrites(old(m.s), p, v)
  {
    if Leaf(p, v) in m.s.refs { LeafInRange(m.s, p, v); }
    if Leaf(p, v) !in m.s.refs || !m.s.refs[Leaf(p, v)].u || m.s.refs[Leaf(p, v)].cow {
      PageBelowSize(v, m.s.sz[p]);
      var r := m.PageFault(p, v, v * 4096 < m.s.sz[p], false);
      if r == None { return false; }
    }
    ok := m.s.refs[Leaf(p, v)].w;
  }

  /** One turn of copyout's loop. */
  method CopyoutPage(m: Vm, p: Pid, v: nat, off: nat, src: seq<nat>) returns (ok: bool)
    requires Ready(m.s, p) && off + |src| <= PGSIZE
    modifies m`s
    ensures m.s.sz == old(m.s.sz) && Kept(old(m.s.refs), m.s.refs, p, {Leaf(p, v)})
    ensures var page := old(PageOf(m.s.refs, m.s.data, p, v));
      if ok then OnePage(old(m.s), m.s, p, v, page.(bytes := Splice(page.bytes, off, src))) else SameMem(old(m.s), m.s)
    ensures ok <==> CopyoutWrites(old(m.s), p, v) && Needs(old(m.s.refs), p, v) <= |old(m.s.free)|
    ensures !ok ==> Lacks(m.s, p, true, v) || !CopyoutWrites(old(m.s), p, v)
  {
    ok := MakeWritable(m, p, v);
    if ok {
      ghost var t, page := m.s, PageOf(m.s.refs, m.s.data, p, v);
      Memmove(m, p, v, off, src);
      OnePageTrans(old(m.s), t, m.s, p, v, page.(bytes := Splice(page.bytes, off, src)));
    }
  }

  predicate SameRights(a: SpecPage, b: SpecPage) {
    a.r == b.r && a.w == b.w && a.x == b.x && a.u == b.u
  }

  /** The byte at offset off of page v. */
  function ByteAt(s: State, q: Pid, v: nat, off: nat): nat
    requires off < PGSIZE
  {
    PageOf(s.refs, s.data, q, v).bytes[off]
  }

  /** What the byte at address va is after bytes have been stored at dst. */
  function Over(va: nat, dst: nat, bytes: seq<nat>, was: nat): nat {
    if dst <= va < dst + |bytes| then bytes[va - dst] else was
  }

  /** t is s with the given bytes stored at dst in the memory of p. */
  ghost predicate Stored(s: State, t: State, p: Pid, dst: nat, bytes: seq<nat>) {
    && |t.data| == |s.data|
    && (forall q: Pid, v: nat :: SameRights(PageOf(t.refs, t.data, q, v), PageOf(s.refs, s.data, q, v)))
    && (forall q: Pid, v: nat, off: nat :: off < PGSIZE ==>
      ByteAt(t, q, v, off) ==
        if q == p then Over(v * 4096 + off, dst, bytes, ByteAt(s, q, v, off)) else ByteAt(s, q, v, off))
  }

  lemma SpliceAt(b: Page, off: nat, src: seq<nat>, i: nat)
    requires off + |src| <= PGSIZE && i < PGSIZE
    ensures Splice(b, off, src)[i] == if off <= i < off + |src| then src[i - off] else b[i]
  {
  }

  lemma OverNext(v: nat, off: nat, i: nat, dst: nat, src: seq<nat>, k: nat, n: nat, b: Page, was: nat)
    requires k + n <= |src| && off + n <= PGSIZE && i < PGSIZE && v * 4096 + off == dst + k
    requires b[i] == Over(v * 4096 + i, dst, src[..k], was)
    ensures Splice(b, off, src[k..k + n])[i] == Over(v * 4096 + i, dst, src[..k + n], was)
  {
    SpliceAt(b, off, src[k..k + n], i);
  }

  lemma OverElsewhere(v: nat, off: nat, w: nat, i: nat, dst: nat, src: seq<nat>, k: nat, n: nat, was: nat)
    requires k + n <= |src| && off + n <= PGSIZE && i < PGSIZE && v * 4096 + off == dst + k && v != w
    ensures Over(w * 4096 + i, dst, src[..k], was) == Over(w * 4096 + i, dst, src[..k + n], was)
  {
  }

  lemma StoredNext(s: State, t: State, u: State, p: Pid, dst: nat, src: seq<nat>, k: nat, v: nat, off: nat, n: nat)
    requires k + n <= |src| && off + n <= PGSIZE && v * 4096 + off == dst + k && Stored(s, t, p, dst, src[..k])
    requires var page := PageOf(t.refs, t.data, p, v);
      OnePage(t, u, p, v, page.(bytes := Splice(page.bytes, off, src[k..k + n])))
    ensures Stored(s, u, p, dst, src[..k + n])
  {
    forall q: Pid, w: nat, i: nat | i < PGSIZE
      ensures ByteAt(u, q, w, i) ==
        if q == p then Over(w * 4096 + i, dst, src[..k + n], ByteAt(s, q, w, i)) else ByteAt(s, q, w, i)
    {
      assert ByteAt(t, q, w, i) ==
        if q == p then Over(w * 4096 + i, dst, src[..k], ByteAt(s, q, w, i)) else ByteAt(s, q, w, i);
      if q == p {
        if w == v {
          OverNext(v, off, i, dst, src, k, n, PageOf(t.refs, t.data, p, v).bytes, ByteAt(s, q, w, i));
        } else {
          OverElsewhere(v, off, w, i, dst, src, k, n, ByteAt(s, q, w, i));
        }
      }
    }
  }

  lemma StoredSame(s: State, t: State, u: State, p: Pid, dst: nat, bytes: seq<nat>)
    requires Stored(s, t, p, dst, bytes) && SameMem(t, u)
    ensures Stored(s, u, p, dst, bytes)
  {
    forall q: Pid, v: nat, off: nat | off < PGSIZE ensures ByteAt(u, q, v, off) == ByteAt(t, q, v, off) {
    }
  }

  lemma StoredNone(s: State, p: Pid, dst: nat, src: seq<nat>)
    ensures Stored(s, s, p, dst, src[..0])
  {
  }

  // ---- which pages a copy goes through

  predicate LeafKept(r: Refs, t: Refs, p: Pid, v: nat, w: nat) {
    w >= v ==> (Leaf(p, w) in r <==> Leaf(p, w) in t) && (Leaf(p, w) in r ==> t[Leaf(p, w)] == r[Leaf(p, w)])
  }

  /** The PTEs of p from page v on are as they were. */
  ghost predicate Ahead(r: Refs, t: Refs, p: Pid, v: nat) {
    forall w: nat :: LeafKept(r, t, p, v, w)
  }

  lemma AheadNext(r: Refs, t: Refs, u: Refs, p: Pid, v: nat)
    requires Ahead(r, t, p, v) && Kept(t, u, p, {Leaf(p, v)})
    ensures Ahead(r, u, p, v + 1)
  {
    var n := v + 1;
    forall w: nat ensures LeafKept(r, u, p, n, w) {
      assert LeafKept(r, t, p, v, w);
      if w > v { assert SameAt(t, u, Leaf(p, w)); }
    }
  }

  lemma AheadSame(s: State, t: State, p: Pid, v: nat)
    requires Ahead(s.refs, t.refs, p, v) && t.sz == s.sz && p in s.sz
    ensures CopyoutWrites(t, p, v) == CopyoutWrites(s, p, v) && CopyinReads(t, p, v) == CopyinReads(s, p, v)
  {
    assert LeafKept(s.refs, t.refs, p, v, v);
  }

  predicate Goes(s: State, p: Pid, out: bool, v: nat)
    requires p in s.sz
  {
    if out then CopyoutWrites(s, p, v) else CopyinReads(s, p, v)
  }

  predicate GoesAt(s: State, p: Pid, out: bool, lo: nat, v: nat, w: nat)
    requires p in s.sz
  {
    lo <= w < v ==> Goes(s, p, out, w)
  }

  /** A copy that started from s has gone through the pages [lo, v), all of which it may. */
  ghost predicate Through(s: State, t: State, p: Pid, out: bool, lo: nat, v: nat) {
    p in s.sz && t.sz == s.sz && Ahead(s.refs, t.refs, p, v) && forall w: nat :: GoesAt(s, p, out, lo, v, w)
  }

  lemma ThroughNext(s: State, t: State, u: State, p: Pid, out: bool, lo: nat, v: nat)
    requires Through(s, t, p, out, lo, v)
    ensures Goes(t, p, out, v) == Goes(s, p, out, v)
    ensures Goes(t, p, out, v) && u.sz == t.sz && Kept(t.refs, u.refs, p, {Leaf(p, v)}) ==>
      Through(s, u, p, out, lo, v + 1)
  {
    AheadSame(s, t, p, v);
    if Goes(t, p, out, v) && u.sz == t.sz && Kept(t.refs, u.refs, p, {Leaf(p, v)}) {
      AheadNext(s.refs, t.refs, u.refs, p, v);
      var n := v + 1;
      forall w: nat ensures GoesAt(s, p, out, lo, n, w) { assert GoesAt(s, p, out, lo, v, w); }
    }
  }

  lemma ThroughNone(s: State, p: Pid, out: bool, v: nat)
    requires p in s.sz
    ensures Through(s, s, p, out, v, v)
  {
    forall w: nat ensures LeafKept(s.refs, s.refs, p, v, w) && GoesAt(s, p, out, v, v, w) {}
  }

  /** The page with byte i of a copy to or from address va can be copied. */
  predicate GoesByte(s: State, p: Pid, out: bool, va: nat, i: nat)
    requires p in s.sz
  {
    Goes(s, p, out, PageNo(va + i))
  }

  /** If they end before page v, the first n bytes are in pages before v. */
  lemma ThroughBytes(s: State, t: State, p: Pid, out: bool, va: nat, v: nat, n: nat)
    requires Through(s, t, p, out, PageNo(va), v) && va + n <= v * 4096
    ensures forall i: nat :: i < n ==> GoesByte(s, p, out, va, i)
  {
    forall i: nat | i < n ensures GoesByte(s, p, out, va, i) {
      PageNoBelow(va, i, v);
      assert GoesAt(s, p, out, PageNo(va), v, PageNo(va + i));
    }
  }

  lemma PageNoBelow(va: nat, i: nat, v: nat)
    requires va + i < v * 4096
    ensures PageNo(va) <= PageNo(va + i) < v
  {
  }

  lemma PageNoAt(v: nat, off: nat)
    requires off < PGSIZE
    ensures PageNo(v * 4096 + off) == v
  {
  }

  /** How much of the rest fits in the page. */
  function Chunk(off: nat, rest: nat): (n: nat)
    requires off < PGSIZE
    ensures n <= rest && off + n <= PGSIZE && (n == rest || off + n == PGSIZE)
  {
    if PGSIZE - off > rest then rest else PGSIZE - off
  }

  /** A turn of copyout as the loop sees it, which started from s0 at page lo. */
  method CopyoutTurn(m: Vm, p: Pid, dst: nat, src: seq<nat>, k: nat, v: nat, off: nat, n: nat, ghost s0: State,
      ghost lo: nat)
    returns (ok: bool, done: nat, next: nat)
    requires k + n <= |src| && off + n <= PGSIZE && v * 4096 + off == dst + k
    requires Ready(m.s, p) && Stored(s0, m.s, p, dst, src[..k]) && Through(s0, m.s, p, true, lo, v)
    modifies m`s
    ensures Ready(m.s, p) && m.s.sz == s0.sz && done == (if ok then k + n else k) && next == if ok then v + 1 else v
    ensures Stored(s0, m.s, p, dst, src[..done])
    ensures if ok then Through(s0, m.s, p, true, lo, next) else Lacks(m.s, p, true, v) || !Goes(s0, p, true, v)
  {
    ok := CopyoutPage(m, p, v, off, src[k..k + n]);
    ReadyKept(old(m.s), m.s, p, {Leaf(p, v)});
    ThroughNext(s0, old(m.s), m.s, p, true, lo, v);
    if ok {
      StoredNext(s0, old(m.s), m.s, p, dst, src, k, v, off, n);
    } else {
      StoredSame(s0, old(m.s), m.s, p, dst, src[..k]);
    }
    done, next := if ok then k + n else k, if ok then v + 1 else v;
  }

  /** copyout from offset off of page v on; it ends before page end. */
  method CopyoutFrom(m: Vm, p: Pid, dst: nat, src: seq<nat>, v: nat, off: nat)
    returns (ok: bool, written: nat, ghost end: nat)
    requires Ready(m.s, p) && v * 4096 + off == dst && off < PGSIZE
    modifies m`s
    ensures Ready(m.s, p) && written <= |src| && Stored(old(m.s), m.s, p, dst, src[..written])
    ensures (ok <==> written == |src|)
    ensures exists t: State :: Through(old(m.s), t, p, true, v, end)
    ensures m.s.sz == old(m.s.sz) && dst + written <= end * 4096 + (if written == 0 then off else 0)
    ensures !ok ==>
      && (dst + written == end * 4096 + if written == 0 then off else 0)
      && (Lacks(m.s, p, true, end) || !Goes(old(m.s), p, true, end))
  {
    var w: nat, o: nat := v, off;
    written, end := 0, v;
    StoredNone(m.s, p, dst, src);
    ThroughNone(m.s, p, true, v);
    while written < |src|
      invariant written <= |src| && Ready(m.s, p) && Stored(old(m.s), m.s, p, dst, src[..written])
      invariant Through(old(m.s), m.s, p, true, v, w) && end == w && o == (if written == 0 then off else 0)
      invariant dst + written <= w * 4096 + o && (written < |src| ==> dst + written == w * 4096 + o)
    {
      var n := Chunk(o, |src| - written);
      ghost var t := m.s;
      ok, written, w := CopyoutTurn(m, p, dst, src, written, w, o, n, old(m.s), v);
      end := w;
      if !ok {
        assert Through(old(m.s), t, p, true, v, end);
        return;
      }
      o := 0;
    }
    ok := true;
  }

  /** copyout: all bytes, page by page.  It can fail half way; written counts the bytes that
      have arrived then.  It fails at a page that it must not write, or for want of memory. */
  method Copyout(m: Vm, p: Pid, dst: nat, src: seq<nat>) returns (ok: bool, ghost written: nat)
    requires Ready(m.s, p)
    modifies m`s
    ensures Ready(m.s, p) && m.s.sz == old(m.s.sz)
    ensures written <= |src| && Stored(old(m.s), m.s, p, dst, src[..written])
    ensures ok <==> written == |src|
    ensures forall i: nat :: i < written ==> GoesByte(old(m.s), p, true, dst, i)
    ensures !ok ==> Lacks(m.s, p, true, PageNo(dst + written)) || !GoesByte(old(m.s), p, true, dst, written)
  {
    ghost var end;
    var w;
    ok, w, end := CopyoutFrom(m, p, dst, src, PageNo(dst), Offset(dst));
    written := w;
    CopiedBytes(old(m.s), p, true, dst, end, written);
    if !ok { PageNoAt(end, if written == 0 then Offset(dst) else 0); }
  }

  lemma CopiedBytes(s: State, p: Pid, out: bool, va: nat, end: nat, n: nat)
    requires exists t: State :: Through(s, t, p, out, PageNo(va), end)
    requires va + n <= end * 4096 + if n == 0 then Offset(va) else 0
    ensures p in s.sz && forall i: nat :: i < n ==> GoesByte(s, p, out, va, i)
  {
    var t: State :| Through(s, t, p, out, PageNo(va), end);
    if n > 0 { ThroughBytes(s, t, p, out, va, end, n); }
  }

  /** The exact condition under which copyin reads page v, memory permitting. */
  predicate CopyinReads(s: State, p: Pid, v: nat)
    requires p in s.sz
  {
    if Leaf(p, v) in s.refs && s.refs[Leaf(p, v)].u then true
    else v * 4096 < s.sz[p] && (Leaf(p, v) in s.refs ==> s.refs[Leaf(p, v)].cow)
  }

  /** One turn of copyin's loop; nobody's memory changes. */
  method CopyinPage(m: Vm, p: Pid, v: nat, off: nat, n: nat) returns (ok: bool, bytes: seq<nat>)
    requires Ready(m.s, p) && off + n <= PGSIZE
    modifies m`s
    ensures Faulted(old(m.s), m.s, p, v)
    ensures ok ==> bytes == old(PageOf(m.s.refs, m.s.data, p, v)).bytes[off..off + n]
    ensures ok <==> CopyinReads(old(m.s), p, v) && !Lacks(old(m.s), p, false, v)
    ensures !ok ==> Lacks(m.s, p, false, v) || !CopyinReads(old(m.s), p, v)
  {
    if Leaf(p, v) !in m.s.refs || !m.s.refs[Leaf(p, v)].u {
      PageBelowSize(v, m.s.sz[p]);
      var r := m.PageFault(p, v, v * 4096 < m.s.sz[p], false);
      if r == None { return false, []; }
    }
    LeafInRange(m.s, p, v);
    var page := PageOf(m.s.refs, m.s.data, p, v);
    ok, bytes := true, page.bytes[off..off + n];
  }

  /** The bytes are what p sees at va. */
  ghost predicate Reads(s: State, p: Pid, va: nat, bytes: seq<nat>) {
    forall v: nat, off: nat :: ReadAt(s, p, va, bytes, v, off)
  }

  ghost predicate ReadAt(s: State, p: Pid, va: nat, bytes: seq<nat>, v: nat, off: nat) {
    off < PGSIZE ==> Over(v * 4096 + off, va, bytes, ByteAt(s, p, v, off)) == ByteAt(s, p, v, off)
  }

  lemma ReadsNext(s: State, t: State, p: Pid, va: nat, bytes: seq<nat>, v: nat, off: nat, more: seq<nat>)
    requires Reads(s, p, va, bytes) && SameMem(s, t) && off + |more| <= PGSIZE && v * 4096 + off == va + |bytes|
    requires more == PageOf(t.refs, t.data, p, v).bytes[off..off + |more|]
    ensures Reads(s, p, va, bytes + more)
  {
    var all := bytes + more;
    forall w: nat, i: nat ensures ReadAt(s, p, va, all, w, i) { assert ReadAt(s, p, va, bytes, w, i); }
  }

  /** A turn as the loop sees it, which started from s0 at page lo. */
  method CopyinTurn(m: Vm, p: Pid, va: nat, got: seq<nat>, v: nat, off: nat, n: nat, ghost s0: State, ghost lo: nat)
    returns (ok: bool, bytes: seq<nat>, next: nat)
    requires Ready(m.s, p) && SameMem(s0, m.s) && Reads(s0, p, va, got) && Through(s0, m.s, p, false, lo, v)
    requires off + n <= PGSIZE && v * 4096 + off == va + |got|
    modifies m`s
    ensures Ready(m.s, p) && m.s.sz == s0.sz && SameMem(s0, m.s) && next == if ok then v + 1 else v
    ensures Reads(s0, p, va, bytes) && |bytes| == |got| + if ok then n else 0
    ensures if ok then Through(s0, m.s, p, false, lo, next) else Lacks(m.s, p, false, v) || !Goes(s0, p, false, v)
  {
    var more;
    ok, more := CopyinPage(m, p, v, off, n);
    ReadyKept(old(m.s), m.s, p, {Leaf(p, v)});
    ThroughNext(s0, old(m.s), m.s, p, false, lo, v);
    bytes, next := got, v;
    if ok {
      ReadsNext(s0, old(m.s), p, va, got, v, off, more);
      bytes, next := got + more, v + 1;
    }
  }

  /** copyin from offset off of page v on; it ends before page end. */
  method CopyinFrom(m: Vm, p: Pid, va: nat, len: nat, v: nat, off: nat)
    returns (ok: bool, bytes: seq<nat>, ghost end: nat)
    requires Ready(m.s, p) && v * 4096 + off == va && off < PGSIZE
    modifies m`s
    ensures Ready(m.s, p) && m.s.sz == old(m.s.sz) && SameMem(old(m.s), m.s)
    ensures Reads(old(m.s), p, va, bytes) && |bytes| <= len && (ok <==> |bytes| == len)
    ensures exists t: State :: Through(old(m.s), t, p, false, v, end)
    ensures va + |bytes| <= end * 4096 + if |bytes| == 0 then off else 0
    ensures !ok ==>
      && (va + |bytes| == end * 4096 + if |bytes| == 0 then off else 0)
      && (Lacks(m.s, p, false, end) || !Goes(old(m.s), p, false, end))
  {
    var w: nat, o: nat := v, off;
    bytes, end := [], v;
    ThroughNone(m.s, p, false, v);
    while |bytes| < len
      invariant |bytes| <= len && Ready(m.s, p) && SameMem(old(m.s), m.s) && Reads(old(m.s), p, va, bytes)
      invariant Through(old(m.s), m.s, p, false, v, w) && end == w && o == (if |bytes| == 0 then off else 0)
      invariant va + |bytes| <= w * 4096 + o && (|bytes| < len ==> va + |bytes| == w * 4096 + o)
      decreases len - |bytes|
    {
      var n := Chunk(o, len - |bytes|);
      ghost var t := m.s;
      ok, bytes, w := CopyinTurn(m, p, va, bytes, w, o, n, old(m.s), v);
      end := w;
      if !ok {
        assert Through(old(m.s), t, p, false, v, end);
        return;
      }
      o := 0;
    }
    ok := true;
  }

  /** copyin: the bytes that the process sees, or failure at a page that it must not read or for
      want of memory. */
  method Copyin(m: Vm, p: Pid, va: nat, len: nat) returns (ok: bool, bytes: seq<nat>)
    requires Ready(m.s, p)
    modifies m`s
    ensures Ready(m.s, p) && m.s.sz == old(m.s.sz) && SameMem(old(m.s), m.s)
    ensures Reads(old(m.s), p, va, bytes) && |bytes| <= len
    ensures ok <==> |bytes| == len
    ensures forall i: nat :: i < |bytes| ==> GoesByte(old(m.s), p, false, va, i)
    ensures !ok ==> Lacks(m.s, p, false, PageNo(va + |bytes|)) || !GoesByte(old(m.s), p, false, va, |bytes|)
  {
    ghost var end;
    ok, bytes, end := CopyinFrom(m, p, va, len, PageNo(va), Offset(va));
    CopiedBytes(old(m.s), p, false, va, end, |bytes|);
    if !ok { PageNoAt(end, if |bytes| == 0 then Offset(va) else 0); }
  }

  // ---------------------------------------------------------------- access rights

  /** What a store by the process itself would be allowed to do. */
  predicate UserWritable(s: State, p: Pid, v: nat)
    requires p in s.sz
  {
    var page := PageOf(s.refs, s.data, p, v); page.u && page.w && v * 4096 < s.sz[p]
  }

  predicate UserReadable(s: State, p: Pid, v: nat)
    requires p in s.sz
  {
    var page := PageOf(s.refs, s.data, p, v); page.u && page.r && v * 4096 < s.sz[p]
  }

  /** A page that its process may not touch (exec's guard page below the stack) but that is
      marked copy-on-write. */
  predicate HiddenCow(s: State, p: Pid, v: nat)
    requires p in s.sz
  {
    Leaf(p, v) in s.refs && s.refs[Leaf(p, v)].cow && !s.refs[Leaf(p, v)].u && v * 4096 < s.sz[p]
  }

  /** copyout and copyin observe the rights of the process, except on the pages above, which
      they open up. */
  lemma CopyRights(s: Consistent, p: Pid, v: nat)
    requires p in s.sz && NoLeaves(s.refs, p, PagesOf(s.sz[p]))
    ensures (CopyoutWrites(s, p, v) == UserWritable(s, p, v)) <==> !HiddenCow(s, p, v)
    ensures (CopyinReads(s, p, v) == UserReadable(s, p, v)) <==> !HiddenCow(s, p, v)
  {
    if Leaf(p, v) in s.refs {
      LeafInRange(s, p, v);
      assert v < PagesOf(s.sz[p]);
    }
  }

  // ---------------------------------------------------------------- user loads and stores

  /** A user load: the byte of the private memory, or a fault that kills the process. */
  method Load(m: Vm, p: Pid, va: nat) returns (r: Option<nat>)
    requires Ready(m.s, p)
    modifies m`s
    ensures Faulted(old(m.s), m.s, p, PageNo(va))
    ensures r.Some? ==> r.value == old(ByteAt(m.s, p, PageNo(va), Offset(va)))
    ensures r.Some? <==> var page, v := old(PageOf(m.s.refs, m.s.data, p, PageNo(va))), PageNo(va);
      && page.u && page.r
      && (Leaf(p, v) !in old(m.s.refs) ==> va < m.s.sz[p] && Needs(old(m.s.refs), p, v) <= |old(m.s.free)|)
  {
    var v := PageNo(va);
    if Leaf(p, v) in m.s.refs { LeafInRange(m.s, p, v); }
    if Leaf(p, v) !in m.s.refs {
      var a := m.VmFault(p, va, true);
      if a == None { return None; }
    }
    LeafInRange(m.s, p, v);
    var page := PageOf(m.s.refs, m.s.data, p, v);
    r := if page.u && page.r then Some(page.bytes[Offset(va)]) else None;
  }

  /** A user store.  Where the PTE forbids it, the hardware faults; vmfault may map or copy
      the page, and the store is tried again. */
  method Store(m: Vm, p: Pid, va: nat, b: nat) returns (ok: bool)
    requires Ready(m.s, p)
    modifies m`s
    ensures m.s.sz == old(m.s.sz) && Kept(old(m.s.refs), m.s.refs, p, {Leaf(p, PageNo(va))})
    ensures var page := old(PageOf(m.s.refs, m.s.data, p, PageNo(va)));
      if ok then OnePage(old(m.s), m.s, p, PageNo(va), Poke(page, Offset(va), b)) else SameMem(old(m.s), m.s)
    ensures ok <==> var page, v := old(PageOf(m.s.refs, m.s.data, p, PageNo(va))), PageNo(va);
      && page.u && page.w
      && ((Leaf(p, v) in old(m.s.refs) && old(m.s.refs)[Leaf(p, v)].w)
        || (va < m.s.sz[p] && Needs(old(m.s.refs), p, v) <= |old(m.s.free)|))
  {
    var v := PageNo(va);
    if Leaf(p, v) in m.s.refs { LeafInRange(m.s, p, v); }
    if Leaf(p, v) !in m.s.refs || m.s.refs[Leaf(p, v)].cow {
      var a := m.VmFault(p, va, false);
      if a == None { return false; }
    }
    ok := m.s.refs[Leaf(p, v)].u && m.s.refs[Leaf(p, v)].w;
    if ok {
      ghost var t, page := m.s, PageOf(m.s.refs, m.s.data, p, v);
      LeafInRange(m.s, p, v);
      StepWrite(m.s, p, v, Offset(va), b);
      m.s := DoWrite(m.s, p, v, Offset(va), b);
      OnePageTrans(old(m.s), t, m.s, p, v, Poke(page, Offset(va), b));
    }
  }
}
