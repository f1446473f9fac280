/** The three-level page tables of kernel/vm.c as words in memory: 512 PTEs to a page, Sv39
  (section 4.4 of the RISC-V Privileged Architecture, version 20211203). */
module PageTable {
  import opened Basics
  import opened CowMemory

  type Table = t: seq<nat> | |t| == ENTRIES witness seq(ENTRIES, _ => 0)

  /** mem holds the pages that are in use as tables or on the free list.  at gives the pages of
      one page table by the indices that lead to them and own is its inverse; no code reads
      these two. */
  datatype Space = Space(mem: map<nat, Table>, free: seq<nat>, root: nat, at: map<Path, nat>, own: map<nat, Path>)

  function Zeros(): Table {
    seq(ENTRIES, _ => 0)
  }

  // ---------------------------------------------------------------- words

  /** PA2PTE of page a with the given flags. */
  function Word(a: nat, flags: nat): nat {
    a * 1024 + flags
  }

  predicate Bit(w: nat, k: nat) {
    if k == 0 then w % 2 == 1 else Bit(w / 2, k - 1)
  }

  predicate Valid(w: nat) { w % 2 == 1 }

  /** PTE2PA, as a page number. */
  function Ppn(w: nat): nat { w / 1024 }

  /** None of PTE_R, PTE_W and PTE_X. */
  predicate Pointer(w: nat) { !Bit(w, 1) && !Bit(w, 2) && !Bit(w, 3) }

  /** A leaf entry that maps page a with the rights in perm: PTE_V is set, and so are exactly the
      flags of perm. */
  ghost predicate LeafFor(w: nat, a: nat, perm: nat) {
    Valid(w) && Ppn(w) == a && forall j :: 1 <= j < 10 ==> Bit(w, j) == Bit(perm, j)
  }

  /** Or-ing PTE_V into flags. */
  function WithValid(flags: nat): nat {
    if flags % 2 == 1 then flags else flags + 1
  }

  function Num(b: bool): nat {
    if b then 1 else 0
  }

  /** The word for an entry of the flat page table, and back. */
  function Encode(t: Pte): nat {
    Word(t.ppn, 1 + 2 * Num(t.r) + 4 * Num(t.w) + 8 * Num(t.x) + 16 * Num(t.u) + 256 * Num(t.cow))
  }

  function Decode(w: nat): Pte {
    Pte(Ppn(w), Bit(w, 1), Bit(w, 2), Bit(w, 3), Bit(w, 4), Bit(w, 8))
  }

  lemma LastBit(n: nat, b: bool, k: nat)
    ensures Bit(2 * n + Num(b), 0) == b && Bit(2 * n + Num(b), k + 1) == Bit(n, k)
  {
    assert (2 * n + Num(b)) / 2 == n;
  }

  function Pow2(m: nat): nat {
    if m == 0 then 1 else 2 * Pow2(m - 1)
  }

  lemma {:induction false} LowBitsKept(a: nat, f: nat, m: nat, j: nat)
    requires j < m
    ensures Bit(a * Pow2(m) + f, j) == Bit(f, j)
  {
    var x := a * Pow2(m - 1);
    assert a * Pow2(m) == 2 * x;
    assert (2 * x + f) / 2 == x + f / 2;
    if j > 0 { LowBitsKept(a, f / 2, m - 1, j - 1); }
  }

  /** What mappages stores is an entry as it should be. */
  lemma LeafWord(a: nat, perm: nat)
    requires perm < 1024
    ensures LeafFor(Word(a, WithValid(perm)), a, perm)
  {
    var w := Word(a, WithValid(perm));
    assert Valid(w) by { WordValid(a, perm); }
    assert Ppn(w) == a by { PpnOf(a, WithValid(perm)); }
    forall j | 1 <= j < 10 ensures Bit(w, j) == Bit(perm, j) { LeafBit(a, perm, j); }
  }

  lemma WordValid(a: nat, perm: nat)
    ensures Valid(Word(a, WithValid(perm)))
  {
    var f := WithValid(perm);
    assert f % 2 == 1;
    LowBitsKept(a, f, 10, 0);
    TenBits();
  }

  lemma LeafBit(a: nat, perm: nat, j: nat)
    requires 1 <= j < 10
    ensures Bit(Word(a, WithValid(perm)), j) == Bit(perm, j)
  {
    TenBits();
    LowBitsKept(a, WithValid(perm), 10, j);
    assert WithValid(perm) / 2 == perm / 2;
  }

  lemma TenBits()
    ensures Pow2(10) == 1024
  {
    assert Pow2(6) == 64;
  }

  lemma PpnOf(a: nat, flags: nat)
    requires flags < 1024
    ensures Ppn(Word(a, flags)) == a
  {
  }

  lemma PointerWord(a: nat)
    ensures Valid(Word(a, 1)) && Ppn(Word(a, 1)) == a && Pointer(Word(a, 1)) && !Valid(0)
  {
    LowBits(64 * a, false, false, false, 0);
    LastBit(512 * a, true, 0);
    PpnOf(a, 1);
  }

  /** The four lowest bits and what follows them. */
  lemma LowBits(n: nat, x: bool, w: bool, r: bool, k: nat)
    ensures var z := 16 * n + 8 * Num(x) + 4 * Num(w) + 2 * Num(r) + 1;
      Bit(z, 0) && Bit(z, 1) == r && Bit(z, 2) == w && Bit(z, 3) == x && Bit(z, k + 4) == Bit(n, k)
  {
    var z3 := 2 * n + Num(x);
    var z2 := 2 * z3 + Num(w);
    var z1 := 2 * z2 + Num(r);
    assert 16 * n + 8 * Num(x) + 4 * Num(w) + 2 * Num(r) + 1 == 2 * z1 + Num(true);
    LastBit(z1, true, 0); LastBit(z1, true, 1); LastBit(z1, true, 2); LastBit(z1, true, k + 3);
    LastBit(z2, r, 0); LastBit(z2, r, 1); LastBit(z2, r, k + 2);
    LastBit(z3, w, 0); LastBit(z3, w, k + 1);
    LastBit(n, x, k);
  }

  lemma HighBits(n: nat, u: bool)
    ensures Bit(16 * n + Num(u), 0) == u && Bit(16 * n + Num(u), 4) == Bit(n, 0)
  {
    LastBit(8 * n, u, 3);
    LastBit(4 * n, false, 2);
    LastBit(2 * n, false, 1);
    LastBit(n, false, 0);
  }

  lemma EncodeBits(t: Pte)
    ensures var w := Encode(t);
      && Bit(w, 0) && Bit(w, 1) == t.r && Bit(w, 2) == t.w && Bit(w, 3) == t.x
      && Bit(w, 4) == t.u && Bit(w, 8) == t.cow
  {
    var cow := 4 * t.ppn + Num(t.cow);
    LowBits(16 * cow + Num(t.u), t.x, t.w, t.r, 0);
    LowBits(16 * cow + Num(t.u), t.x, t.w, t.r, 4);
    HighBits(cow, t.u);
    LastBit(2 * t.ppn, t.cow, 0);
  }

  lemma EncodeRoundTrip(t: Pte)
    ensures Decode(Encode(t)) == t && Valid(Encode(t)) && (Pointer(Encode(t)) <==> !t.r && !t.w && !t.x)
  {
    EncodeBits(t);
    PpnOf(t.ppn, 1 + 2 * Num(t.r) + 4 * Num(t.w) + 8 * Num(t.x) + 16 * Num(t.u) + 256 * Num(t.cow));
  }

  // ---------------------------------------------------------------- invariant

  /** An entry of an upper table is zero or leads to the table it should.  The entry for hole is
      exempt; there is none when hole is Root. */
  predicate EntryOk(mem: map<nat, Table>, at: map<Path, nat>, hole: Path, q: Path, i: nat) {
    q in at && !q.Low? && i < ENTRIES && Child(q, i) != hole ==>
      at[q] in mem && mem[at[q]][i] == if Child(q, i) in at then Word(at[Child(q, i)], 1) else 0
  }

  predicate PathOk(mem: map<nat, Table>, at: map<Path, nat>, own: map<nat, Path>, q: Path) {
    q in at ==> at[q] in mem && at[q] in own && own[at[q]] == q && HangsOn(at, q)
  }

  /** A table below the root hangs on one that is there. */
  predicate HangsOn(at: map<Path, nat>, q: Path) {
    match q
    case Root => true
    case Mid(i) => i < ENTRIES && Root in at
    case Low(i, j) => j < ENTRIES && Mid(i) in at
  }

  predicate OwnOk(at: map<Path, nat>, own: map<nat, Path>, a: nat) {
    a in own ==> own[a] in at && at[own[a]] == a
  }

  predicate FreePage(mem: map<nat, Table>, free: seq<nat>, own: map<nat, Path>, k: nat) {
    k < |free| ==> free[k] in mem && free[k] !in own
  }

  ghost predicate FreeOk(mem: map<nat, Table>, free: seq<nat>, own: map<nat, Path>) {
    (forall k: nat :: FreePage(mem, free, own, k)) && (forall j: nat, k: nat :: Differ(free, j, k))
  }

  ghost predicate TreeOk(mem: map<nat, Table>, at: map<Path, nat>, own: map<nat, Path>, hole: Path) {
    && (forall q: Path, i: nat :: EntryOk(mem, at, hole, q, i)) && (forall q: Path :: PathOk(mem, at, own, q))
    && (forall a: nat :: OwnOk(at, own, a))
  }

  ghost predicate Inv(s: Space, hole: Path) {
    TreeOk(s.mem, s.at, s.own, hole) && FreeOk(s.mem, s.free, s.own)
  }

  ghost predicate Whole(s: Space) {
    Inv(s, Root) && Root in s.at && s.at[Root] == s.root
  }

  ghost function Single(): (s: Space)
    ensures Whole(s)
  {
    Space(map[0 := Zeros()], [], 0, map[Root := 0], map[0 := Root])
  }

  type Consistent = s: Space | Whole(s) ghost witness Single()

  // ---------------------------------------------------------------- the flat map

  /** The word for page v; a page whose table is missing has none. */
  ghost function Flat(s: Space, v: nat): nat {
    var q := LowPath(v);
    if q in s.at && s.at[q] in s.mem then s.mem[s.at[q]][Px0(v)] else 0
  }

  /** walk as the hardware does it: three reads. */
  function Step(mem: map<nat, Table>, a: Option<nat>, i: nat): Option<nat> {
    if a.Some? && a.value in mem && i < ENTRIES && Valid(mem[a.value][i]) then Some(Ppn(mem[a.value][i])) else None
  }

  function Translate(mem: map<nat, Table>, root: nat, v: nat): nat {
    var a := Step(mem, Step(mem, Some(root), Px2(v)), Px1(v));
    if a.Some? && a.value in mem then mem[a.value][Px0(v)] else 0
  }

  lemma IndexOfPage(v: nat)
    requires v < MAXVPN
    ensures Px2(v) < ENTRIES && Px1(v) < ENTRIES && Px0(v) < ENTRIES
  {
  }

  /** The three indices make up the page number. */
  lemma PageOfIndices(v: nat)
    ensures v == (Px2(v) * 512 + Px1(v)) * 512 + Px0(v)
  {
    var n := v / 512;
    assert v / 262144 == n / 512;
  }

  /** A translation by words gives the flat map's entry. */
  lemma TranslateIsFlat(s: Consistent, v: nat)
    requires v < MAXVPN
    ensures Translate(s.mem, s.root, v) == Flat(s, v)
  {
    IndexOfPage(v);
    EntryLeads(s, v, 2);
    if Mid(Px2(v)) in s.at {
      EntryLeads(s, v, 1);
    }
    SlotIsFlat(s, v);
  }

  /** Different pages have different slots. */
  lemma SlotsDiffer(s: Consistent, v: nat, w: nat)
    requires v < MAXVPN && w < MAXVPN && v != w && LowPath(v) in s.at && LowPath(w) in s.at
    ensures s.at[LowPath(v)] != s.at[LowPath(w)] || Px0(v) != Px0(w)
  {
    PageOfIndices(v);
    PageOfIndices(w);
    assert PathOk(s.mem, s.at, s.own, LowPath(v)) && PathOk(s.mem, s.at, s.own, LowPath(w));
  }

  // ---------------------------------------------------------------- frames

  /** Pages that this page table and the free list do not hold keep their contents, and none is
      lost or gained. */
  predicate PageKept(s: Space, t: Space, a: nat) {
    && (a in s.own || a in s.free <==> a in t.own || a in t.free)
    && (a in s.mem <==> a in t.mem) && (a in s.mem && a !in s.own && a !in s.free ==> t.mem[a] == s.mem[a])
  }

  ghost predicate PagesKept(s: Space, t: Space) {
    t.root == s.root && forall a: nat :: PageKept(s, t, a)
  }

  ghost predicate SameFlat(s: Space, t: Space, v: nat) {
    Flat(t, v) == Flat(s, v)
  }

  /** walk: no entry changes, though there may be more tables. */
  ghost predicate Extends(s: Space, t: Space) {
    PagesKept(s, t) && (forall v: nat :: SameFlat(s, t, v)) && (forall q: Path :: PathKept(s, t, q))
  }

  predicate PathKept(s: Space, t: Space, q: Path) {
    q in s.at ==> q in t.at && t.at[q] == s.at[q]
  }

  lemma ExtendsTrans(s: Space, t: Space, u: Space)
    requires Extends(s, t) && Extends(t, u)
    ensures Extends(s, u)
  {
    forall a: nat ensures PageKept(s, u, a) { assert PageKept(s, t, a) && PageKept(t, u, a); }
    forall v: nat ensures SameFlat(s, u, v) { assert SameFlat(s, t, v) && SameFlat(t, u, v); }
    forall q: Path ensures PathKept(s, u, q) { assert PathKept(s, t, q) && PathKept(t, u, q); }
  }

  // ---------------------------------------------------------------- walk

  /** A zeroed page from the free list becomes the table behind entry i of the one at q. */
  function Grown(s: Space, q: Path, i: nat): Space
    requires s.free != [] && q in s.at && s.at[q] in s.mem && i < ENTRIES
  {
    var c, a := s.free[0], s.at[q];
    var m := s.mem[c := Zeros()];
    s.(mem := m[a := m[a][i := Word(c, 1)]], free := s.free[1..], at := s.at[Child(q, i) := c],
       own := s.own[c := Child(q, i)])
  }

  predicate CanGrow(s: Space, q: Path, i: nat) {
    && s.free != [] && q in s.at && s.at[q] in s.mem && i < ENTRIES && !q.Low? && !Valid(s.mem[s.at[q]][i])
  }

  lemma NoChild(s: Consistent, q: Path, i: nat)
    requires CanGrow(s, q, i)
    ensures Child(q, i) !in s.at && s.free[0] in s.mem && s.free[0] !in s.own && s.free[0] != s.at[q]
  {
    assert EntryOk(s.mem, s.at, Root, q, i);
    if Child(q, i) in s.at { PointerWord(s.at[Child(q, i)]); }
    assert FreePage(s.mem, s.free, s.own, 0);
    assert PathOk(s.mem, s.at, s.own, q);
  }

  lemma GrownInv(s: Consistent, q: Path, i: nat)
    requires CanGrow(s, q, i)
    ensures Whole(Grown(s, q, i))
  {
    NoChild(s, q, i);
    var t := Grown(s, q, i);
    var mem, at, own, free := t.mem, t.at, t.own, t.free;
    forall p: Path, j: nat ensures EntryOk(mem, at, Root, p, j) {
      assert EntryOk(s.mem, s.at, Root, p, j);
      assert PathOk(s.mem, s.at, s.own, p) && PathOk(s.mem, s.at, s.own, q);
      assert p == Child(q, i) ==> PathOk(s.mem, s.at, s.own, Child(p, j));
    }
    forall p: Path ensures PathOk(mem, at, own, p) { assert PathOk(s.mem, s.at, s.own, p); }
    forall a: nat ensures OwnOk(at, own, a) { assert OwnOk(s.at, s.own, a); }
    forall k: nat ensures FreePage(mem, free, own, k) {
      assert FreePage(s.mem, s.free, s.own, k + 1) && Differ(s.free, 0, k + 1);
    }
    forall j: nat, k: nat ensures Differ(free, j, k) { assert Differ(s.free, j + 1, k + 1); }
  }

  lemma GrownExtends(s: Consistent, q: Path, i: nat)
    requires CanGrow(s, q, i)
    ensures Extends(s, Grown(s, q, i))
  {
    NoChild(s, q, i);
    var t := Grown(s, q, i);
    assert s.free == [s.free[0]] + t.free;
    forall a: nat ensures PageKept(s, t, a) { assert OwnOk(s.at, s.own, a) && PathOk(s.mem, s.at, s.own, q); }
    forall v: nat ensures SameFlat(s, t, v) {
      assert PathOk(s.mem, s.at, s.own, LowPath(v)) && PathOk(s.mem, s.at, s.own, q);
    }
    forall p: Path ensures PathKept(s, t, p) {}
  }

  function IndexAt(v: nat, level: nat): nat {
    if level == 2 then Px2(v) else if level == 1 then Px1(v) else Px0(v)
  }

  function PathAt(v: nat, level: nat): Path {
    if level == 2 then Root else if level == 1 then Mid(Px2(v)) else LowPath(v)
  }

  /** What walk finds in an upper table on its way to page v. */
  lemma EntryLeads(s: Consistent, v: nat, level: nat)
    requires v < MAXVPN && 1 <= level <= 2 && PathAt(v, level) in s.at
    ensures s.at[PathAt(v, level)] in s.mem && IndexAt(v, level) < ENTRIES
    ensures PathAt(v, level - 1) == Child(PathAt(v, level), IndexAt(v, level)) && !PathAt(v, level).Low?
    ensures var w := s.mem[s.at[PathAt(v, level)]][IndexAt(v, level)];
      if Valid(w) then PathAt(v, level - 1) in s.at && s.at[PathAt(v, level - 1)] == Ppn(w) else LowPath(v) !in s.at
  {
    var q, i, c := PathAt(v, level), IndexAt(v, level), PathAt(v, level - 1);
    assert PathOk(s.mem, s.at, s.own, q) && PathOk(s.mem, s.at, s.own, LowPath(v));
    assert EntryOk(s.mem, s.at, Root, q, i);
    PointerWord(if c in s.at then s.at[c] else 0);
  }

  class Tables {
    var s: Consistent

    /** uvmcreate on a page from kalloc. */
    constructor (free: seq<nat>, mem: map<nat, Table>)
      requires free != [] && (forall k: nat :: k < |free| ==> free[k] in mem) && forall j: nat, k: nat ::
        Differ(free, j, k)
      ensures s.root == free[0] && s.free == free[1..] && forall v: nat :: Flat(s, v) == 0
    {
      var rest := free[1..];
      var m := mem[free[0] := Zeros()];
      var own := map[free[0] := Root];
      forall k: nat ensures FreePage(m, rest, own, k) { assert Differ(free, 0, k + 1); }
      forall j: nat, k: nat ensures Differ(rest, j, k) { assert Differ(free, j + 1, k + 1); }
      s := Space(m, rest, free[0], map[Root := free[0]], own);
    }

    /** walk: the slot of page v.  Without a slot either a table is missing and none was asked
        for, or there is no memory; in both cases the entries are as they were. */
    method Walk(v: nat, alloc: bool) returns (slot: Option<(nat, nat)>)
      requires v < MAXVPN
      modifies this
      ensures Extends(old(s), s) && (!alloc ==> s == old(s))
      ensures slot.Some? ==> LowPath(v) in s.at && slot.value == (s.at[LowPath(v)], Px0(v))
      ensures slot == None ==> LowPath(v) !in s.at && (alloc ==> s.free == [])
    {
      IndexOfPage(v);
      var a, level := s.root, 2;
      while level > 0
        invariant 0 <= level <= 2 && PathAt(v, level) in s.at && a == s.at[PathAt(v, level)]
        invariant Extends(old(s), s) && (!alloc ==> s == old(s))
      {
        EntryLeads(s, v, level);
        var q, i := PathAt(v, level), IndexAt(v, level);
        var w := s.mem[a][i];
        if Valid(w) {
          a := Ppn(w);
        } else {
          if !alloc || s.free == [] {
            return None;
          }
          a := s.free[0];
          GrownInv(s, q, i);
          GrownExtends(s, q, i);
          ExtendsTrans(old(s), s, Grown(s, q, i));
          s := Grown(s, q, i);
        }
        level := level - 1;
      }
      slot := Some((a, Px0(v)));
    }

    /** mappages: on success pages [v, v + n) map to pages a, a + 1, ...; on failure only the
        first k of them do.  No other entry changes.  Mapping a mapped page would panic. */
    method MapPages(v: nat, n: nat, a: nat, perm: nat) returns (ok: bool, ghost k: nat)
      requires 0 < n && v + n <= MAXVPN && perm < 1024 && forall w: nat :: v <= w < v + n ==> !Valid(Flat(s, w))
      modifies this
      ensures PagesKept(old(s), s) && k <= n && (ok <==> k == n) && (!ok ==> s.free == [])
      ensures forall u: nat :: v <= u < v + k ==>
        && Valid(Flat(s, u)) && Ppn(Flat(s, u)) == a + (u - v)
        && forall j :: 1 <= j < 10 ==> Bit(Flat(s, u), j) == Bit(perm, j)
      ensures forall u: nat :: !(v <= u < v + k) ==> Flat(s, u) == Flat(old(s), u)
    {
      k := 0;
      var i := 0;
      while i < n
        invariant 0 <= i <= n && k == i && PagesKept(old(s), s) && Mapped(old(s), s, v, i, a, perm)
      {
        ghost var t := s;
        assert MappedAt(old(s), s, v, i, a, perm, v + i);
        var slot := Walk(v + i, true);
        WalkedMapped(old(s), t, s, v, i, a, perm);
        if slot == None {
          MappedIs(old(s), s, v, i, a, perm);
          return false, i;
        }
        var w := Word(a + i, WithValid(perm));
        LeafWord(a + i, perm);
        PutSlot(s, v + i, w);
        MappedNext(old(s), s, Put(s, slot.value.0, slot.value.1, w), v, i, a, perm, w);
        s := Put(s, slot.value.0, slot.value.1, w);
        i, k := i + 1, k + 1;
      }
      MappedIs(old(s), s, v, n, a, perm);
      ok := true;
    }

    /** uvmunmap: the valid entries of pages [v, v + n) become zero and the pages they led to
        are handed to kfree, in order.  Missing tables and entries do no harm. */
    method Unmap(v: nat, n: nat) returns (freed: seq<nat>)
      requires v + n <= MAXVPN
      modifies this
      ensures PagesKept(old(s), s) && s.free == old(s.free) && s.at == old(s.at)
      ensures Unmapped(old(s), s, v, n) && freed == Leads(old(s), v, n)
    {
      freed := [];
      var i := 0;
      while i < n
        invariant 0 <= i <= n && PagesKept(old(s), s) && s.free == old(s.free) && s.at == old(s.at)
        invariant Unmapped(old(s), s, v, i) && freed == Leads(old(s), v, i)
      {
        var slot := Walk(v + i, false);
        SlotIsFlat(s, v + i);
        assert UnmappedAt(old(s), s, v, i, v + i);
        if slot.Some? && Valid(s.mem[slot.value.0][slot.value.1]) {
          PutSlot(s, v + i, 0);
          UnmappedNext(old(s), s, Put(s, slot.value.0, slot.value.1, 0), v, i);
          freed := freed + [Ppn(s.mem[slot.value.0][slot.value.1])];
          s := Put(s, slot.value.0, slot.value.1, 0);
        } else {
          UnmappedSkip(old(s), s, v, i);
        }
        i := i + 1;
      }
    }
  }

  // ---------------------------------------------------------------- leaf entries

  /** A word of a table is overwritten. */
  function Put(s: Space, a: nat, i: nat, w: nat): Space
    requires a in s.mem && i < ENTRIES
  {
    s.(mem := s.mem[a := s.mem[a][i := w]])
  }

  predicate LowPage(s: Space, a: nat) {
    a in s.mem && a in s.own && s.own[a].Low?
  }

  lemma PutInv(s: Consistent, a: nat, i: nat, w: nat)
    requires LowPage(s, a) && i < ENTRIES
    ensures Whole(Put(s, a, i, w)) && PagesKept(s, Put(s, a, i, w))
  {
    var t := Put(s, a, i, w);
    var mem := t.mem;
    forall q: Path, j: nat ensures EntryOk(mem, s.at, Root, q, j) {
      assert EntryOk(s.mem, s.at, Root, q, j) && PathOk(s.mem, s.at, s.own, q);
    }
    forall q: Path ensures PathOk(mem, s.at, s.own, q) { assert PathOk(s.mem, s.at, s.own, q); }
    forall k: nat ensures FreePage(mem, s.free, s.own, k) { assert FreePage(s.mem, s.free, s.own, k); }
    forall b: nat ensures PageKept(s, t, b) {}
  }

  /** Writing the slot of page v changes the entry of v and of no other page. */
  lemma PutFlat(s: Consistent, v: nat, w: nat)
    requires v < MAXVPN && LowPath(v) in s.at
    ensures LowPage(s, s.at[LowPath(v)]) && OneEntry(s, Put(s, s.at[LowPath(v)], Px0(v), w), v, w)
  {
    assert PathOk(s.mem, s.at, s.own, LowPath(v));
    var t := Put(s, s.at[LowPath(v)], Px0(v), w);
    forall u: nat ensures EntryAt(s, t, v, w, u) {
      assert PathOk(s.mem, s.at, s.own, LowPath(u));
      if LowPath(u) == LowPath(v) && Px0(u) == Px0(v) { SameIndices(u, v); }
    }
  }

  lemma PutSlot(s: Consistent, v: nat, w: nat)
    requires v < MAXVPN && LowPath(v) in s.at
    ensures LowPage(s, s.at[LowPath(v)]) && Px0(v) < ENTRIES
    ensures var t := Put(s, s.at[LowPath(v)], Px0(v), w); Whole(t) && PagesKept(s, t) && OneEntry(s, t, v, w)
  {
    PutFlat(s, v, w);
    PutInv(s, s.at[LowPath(v)], Px0(v), w);
  }

  lemma SameIndices(u: nat, v: nat)
    requires LowPath(u) == LowPath(v) && Px0(u) == Px0(v)
    ensures u == v
  {
    PageOfIndices(u);
    PageOfIndices(v);
  }

  ghost predicate EntryAt(s: Space, t: Space, v: nat, w: nat, u: nat) {
    Flat(t, u) == if u == v then w else Flat(s, u)
  }

  ghost predicate OneEntry(s: Space, t: Space, v: nat, w: nat) {
    forall u: nat :: EntryAt(s, t, v, w, u)
  }

  ghost predicate MappedAt(s: Space, t: Space, v: nat, k: nat, a: nat, perm: nat, u: nat) {
    if v <= u < v + k then LeafFor(Flat(t, u), a + (u - v), perm) else Flat(t, u) == Flat(s, u)
  }

  /** t is s with pages [v, v + k) mapped to a, a + 1, ... */
  ghost predicate Mapped(s: Space, t: Space, v: nat, k: nat, a: nat, perm: nat) {
    forall u: nat :: MappedAt(s, t, v, k, a, perm, u)
  }

  lemma MappedIs(s: Space, t: Space, v: nat, k: nat, a: nat, perm: nat)
    requires Mapped(s, t, v, k, a, perm)
    ensures forall u: nat :: v <= u < v + k ==>
      && Valid(Flat(t, u)) && Ppn(Flat(t, u)) == a + (u - v)
      && forall j :: 1 <= j < 10 ==> Bit(Flat(t, u), j) == Bit(perm, j)
    ensures forall u: nat :: !(v <= u < v + k) ==> Flat(t, u) == Flat(s, u)
  {
    forall u: nat | v <= u < v + k ensures LeafFor(Flat(t, u), a + (u - v), perm) {
      assert MappedAt(s, t, v, k, a, perm, u);
    }
    forall u: nat | !(v <= u < v + k) ensures Flat(t, u) == Flat(s, u) { assert MappedAt(s, t, v, k, a, perm, u); }
  }

  lemma WalkedMapped(s: Space, t: Space, u: Space, v: nat, k: nat, a: nat, perm: nat)
    requires Mapped(s, t, v, k, a, perm) && PagesKept(s, t) && Extends(t, u)
    ensures Mapped(s, u, v, k, a, perm) && PagesKept(s, u)
  {
    forall x: nat ensures MappedAt(s, u, v, k, a, perm, x) {
      assert MappedAt(s, t, v, k, a, perm, x) && SameFlat(t, u, x);
    }
    forall b: nat ensures PageKept(s, u, b) { assert PageKept(s, t, b) && PageKept(t, u, b); }
  }

  lemma MappedNext(s: Space, t: Space, u: Space, v: nat, k: nat, a: nat, perm: nat, w: nat)
    requires Mapped(s, t, v, k, a, perm) && PagesKept(s, t) && PagesKept(t, u)
    requires OneEntry(t, u, v + k, w) && LeafFor(w, a + k, perm)
    ensures Mapped(s, u, v, k + 1, a, perm) && PagesKept(s, u)
  {
    var n, e := k + 1, v + k;
    forall x: nat ensures MappedAt(s, u, v, n, a, perm, x) {
      assert MappedAt(s, t, v, k, a, perm, x) && EntryAt(t, u, e, w, x);
    }
    forall b: nat ensures PageKept(s, u, b) { assert PageKept(s, t, b) && PageKept(t, u, b); }
  }

  lemma SlotIsFlat(s: Consistent, v: nat)
    requires v < MAXVPN
    ensures LowPath(v) in s.at ==> s.at[LowPath(v)] in s.mem && Flat(s, v) == s.mem[s.at[LowPath(v)]][Px0(v)]
    ensures LowPath(v) !in s.at ==> Flat(s, v) == 0
  {
    assert PathOk(s.mem, s.at, s.own, LowPath(v));
  }

  function Cleared(w: nat): nat {
    if Valid(w) then 0 else w
  }

  ghost predicate UnmappedAt(s: Space, t: Space, v: nat, n: nat, u: nat) {
    Flat(t, u) == if v <= u < v + n then Cleared(Flat(s, u)) else Flat(s, u)
  }

  ghost predicate Unmapped(s: Space, t: Space, v: nat, n: nat) {
    forall u: nat :: UnmappedAt(s, t, v, n, u)
  }

  /** The pages that the valid entries of [v, v + n) lead to. */
  ghost function Leads(s: Space, v: nat, n: nat): seq<nat> {
    if n == 0 then [] else Leads(s, v, n - 1) + if Valid(Flat(s, v + n - 1)) then [Ppn(Flat(s, v + n - 1))] else []
  }

  lemma UnmappedNext(s: Space, t: Space, u: Space, v: nat, n: nat)
    requires Unmapped(s, t, v, n) && OneEntry(t, u, v + n, 0) && Valid(Flat(t, v + n)) && PagesKept(s, t)
    requires PagesKept(t, u)
    ensures Unmapped(s, u, v, n + 1) && PagesKept(s, u)
  {
    var m, e := n + 1, v + n;
    assert UnmappedAt(s, t, v, n, e);
    forall x: nat ensures UnmappedAt(s, u, v, m, x) { assert UnmappedAt(s, t, v, n, x) && EntryAt(t, u, e, 0, x); }
    forall b: nat ensures PageKept(s, u, b) { assert PageKept(s, t, b) && PageKept(t, u, b); }
  }

  lemma UnmappedSkip(s: Space, t: Space, v: nat, n: nat)
    requires Unmapped(s, t, v, n) && !Valid(Flat(t, v + n))
    ensures Unmapped(s, t, v, n + 1)
  {
    var m := n + 1;
    assert UnmappedAt(s, t, v, n, v + n);
    forall x: nat ensures UnmappedAt(s, t, v, m, x) { assert UnmappedAt(s, t, v, n, x); }
  }

  // ---------------------------------------------------------------- freewalk

  /** The table at p is the one at q or hangs below it. */
  predicate Below(p: Path, q: Path) {
    p == q ||
      match q
      case Root => true
      case Mid(m) => p.Low? && p.j2 == m
      case Low(_, _) => false
  }

  predicate LeafFree(mem: map<nat, Table>, at: map<Path, nat>, p: Path, i: nat) {
    p in at && p.Low? && at[p] in mem && i < ENTRIES ==> !Valid(mem[at[p]][i])
  }

  /** All leaf entries have been removed. */
  ghost predicate NoLeaves(mem: map<nat, Table>, at: map<Path, nat>) {
    forall p: Path, i: nat :: LeafFree(mem, at, p, i)
  }

  predicate PathLeft(s: Space, t: Space, gone: bool, p: Path) {
    if p in s.at && !gone then p in t.at && t.at[p] == s.at[p] else p !in t.at
  }

  /** Tables that do not hang below q keep their contents. */
  predicate WordsKept(s: Space, t: Space, q: Path, b: nat) {
    b in s.own && !Below(s.own[b], q) && b in s.mem ==> b in t.mem && t.mem[b] == s.mem[b]
  }

  /** The table at q and all below it are on the free list; the entry that led to it is stale. */
  ghost predicate Freed(s: Space, t: Space, q: Path) {
    && Inv(t, q) && NoLeaves(t.mem, t.at) && PagesKept(s, t)
    && (forall p: Path :: PathLeft(s, t, Below(p, q), p)) && (forall b: nat :: WordsKept(s, t, q, b))
  }

  /** freewalk has dealt with the first i entries of the table at q. */
  ghost predicate Freeing(s: Space, t: Space, q: Path, a: nat, i: nat) {
    && Inv(s, Root) && Inv(t, Root) && NoLeaves(t.mem, t.at) && PagesKept(s, t) && q in t.at && t.at[q] == a
    && a in t.mem
    && (forall p: Path :: PathLeft(s, t, Under(q, i, p), p)) && (forall b: nat :: WordsKept(s, t, q, b))
  }

  function Height(q: Path): nat {
    match q
    case Root => 2
    case Mid(_) => 1
    case Low(_, _) => 0
  }

  /** kfree of a table. */
  function Released(s: Space, a: nat): Space
    requires a in s.own
  {
    s.(free := [a] + s.free, at := s.at - {s.own[a]}, own := s.own - {a})
  }

  /** freewalk: every table page is put on the free list once, and there is no panic. */
  method Freewalk(s: Space, a: nat, ghost q: Path) returns (t: Space)
    requires Inv(s, Root) && q in s.at && s.at[q] == a && NoLeaves(s.mem, s.at)
    ensures Freed(s, t, q)
    decreases Height(q)
  {
    t := s;
    var i := 0;
    FreeingStart(s, q, a);
    while i < ENTRIES
      invariant 0 <= i <= ENTRIES && Freeing(s, t, q, a, i)
    {
      ChildEntry(s, t, q, a, i);
      var w := t.mem[a][i];
      if Valid(w) && Pointer(w) {
        var u := Freewalk(t, Ppn(w), Child(q, i));
        FreeingNext(s, t, u, q, a, i);
        t := Put(u, a, i, 0);
      } else {
        if Valid(w) {
          assert false;
        }
        FreeingSkip(s, t, q, a, i);
      }
      i := i + 1;
    }
    FreeingEnd(s, t, q, a);
    t := Released(t, a);
  }

  lemma FreeingStart(s: Space, q: Path, a: nat)
    requires Inv(s, Root) && q in s.at && s.at[q] == a && NoLeaves(s.mem, s.at)
    ensures Freeing(s, s, q, a, 0)
  {
    assert PathOk(s.mem, s.at, s.own, q);
    forall p: Path ensures PathLeft(s, s, Under(q, 0, p), p) {}
  }

  /** An entry is invalid or leads to the child. */
  lemma ChildEntry(s: Space, t: Space, q: Path, a: nat, i: nat)
    requires Freeing(s, t, q, a, i) && i < ENTRIES
    ensures var w := t.mem[a][i];
      if Valid(w) then !q.Low? && Pointer(w) && Child(q, i) in t.at && t.at[Child(q, i)] == Ppn(w)
      else q.Low? || Child(q, i) !in t.at
  {
    var c := Child(q, i);
    assert LeafFree(t.mem, t.at, q, i);
    assert EntryOk(t.mem, t.at, Root, q, i);
    PointerWord(if c in t.at then t.at[c] else 0);
  }

  lemma FreeingSkip(s: Space, t: Space, q: Path, a: nat, i: nat)
    requires Freeing(s, t, q, a, i) && i < ENTRIES && (q.Low? || Child(q, i) !in t.at)
    ensures Freeing(s, t, q, a, i + 1)
  {
    var n := i + 1;
    forall p: Path ensures PathLeft(s, t, Under(q, n, p), p) {
      assert PathLeft(s, t, Under(q, i, p), p);
      assert PathOk(t.mem, t.at, t.own, p);
      assert p.Low? ==> PathOk(t.mem, t.at, t.own, Mid(p.j2));
    }
  }

  lemma FreeingNext(s: Space, t: Space, u: Space, q: Path, a: nat, i: nat)
    requires Freeing(s, t, q, a, i) && i < ENTRIES && !q.Low? && Child(q, i) in t.at && Freed(t, u, Child(q, i))
    ensures a in u.mem && Freeing(s, Put(u, a, i, 0), q, a, i + 1)
  {
    var c := Child(q, i);
    assert PathLeft(t, u, Below(q, c), q) && PathLeft(t, u, Below(c, c), c);
    assert PathOk(u.mem, u.at, u.own, q);
    var n, v := i + 1, Put(u, a, i, 0);
    RestoredInv(u, q, a, i);
    forall b: nat ensures PageKept(s, v, b) { assert PageKept(s, t, b) && PageKept(t, u, b); }
    forall p: Path ensures PathLeft(s, v, Under(q, n, p), p) {
      assert PathLeft(s, t, Under(q, i, p), p) && PathLeft(t, u, Below(p, c), p);
    }
    NextWords(s, t, u, q, a, i);
  }

  /** With its stale entry set to zero the tree is whole again. */
  lemma RestoredInv(u: Space, q: Path, a: nat, i: nat)
    requires q in u.at && u.at[q] == a && a in u.mem && !q.Low? && i < ENTRIES
    requires Inv(u, Child(q, i)) && Child(q, i) !in u.at && NoLeaves(u.mem, u.at)
    ensures Inv(Put(u, a, i, 0), Root) && NoLeaves(Put(u, a, i, 0).mem, u.at)
  {
    var v, c := Put(u, a, i, 0), Child(q, i);
    var mem := v.mem;
    forall p: Path, j: nat ensures EntryOk(mem, u.at, Root, p, j) {
      assert EntryOk(u.mem, u.at, c, p, j) && PathOk(u.mem, u.at, u.own, p) && PathOk(u.mem, u.at, u.own, q);
    }
    forall p: Path ensures PathOk(mem, u.at, u.own, p) { assert PathOk(u.mem, u.at, u.own, p); }
    forall k: nat ensures FreePage(mem, u.free, u.own, k) { assert FreePage(u.mem, u.free, u.own, k); }
    forall p: Path, j: nat ensures LeafFree(mem, u.at, p, j) {
      assert LeafFree(u.mem, u.at, p, j) && PathOk(u.mem, u.at, u.own, p) && PathOk(u.mem, u.at, u.own, q);
    }
  }

  lemma NextWords(s: Space, t: Space, u: Space, q: Path, a: nat, i: nat)
    requires Freeing(s, t, q, a, i) && i < ENTRIES && !q.Low? && Freed(t, u, Child(q, i)) && a in u.mem
    ensures forall b: nat :: WordsKept(s, Put(u, a, i, 0), q, b)
  {
    var v, c := Put(u, a, i, 0), Child(q, i);
    forall b: nat ensures WordsKept(s, v, q, b) {
      assert WordsKept(s, t, q, b) && WordsKept(t, u, c, b);
      assert PathOk(t.mem, t.at, t.own, q);
      if b in s.own {
        var p := s.own[b];
        assert OwnOk(s.at, s.own, b);
        assert PathLeft(s, t, Under(q, i, p), p);
        assert PathOk(t.mem, t.at, t.own, p);
      }
    }
  }

  lemma FreeingEnd(s: Space, t: Space, q: Path, a: nat)
    requires Freeing(s, t, q, a, ENTRIES)
    ensures a in t.own && Freed(s, Released(t, a), q)
  {
    assert PathOk(t.mem, t.at, t.own, q);
    var u := Released(t, a);
    ReleasedInv(s, t, q, a);
    forall b: nat ensures PageKept(s, u, b) { assert PageKept(s, t, b); }
    forall p: Path ensures PathLeft(s, u, Below(p, q), p) {
      assert PathLeft(s, t, Under(q, ENTRIES, p), p) && PathOk(t.mem, t.at, t.own, p);
      assert p.Low? ==> PathOk(t.mem, t.at, t.own, Mid(p.j2));
    }
    forall b: nat ensures WordsKept(s, u, q, b) { assert WordsKept(s, t, q, b); }
  }

  lemma ReleasedInv(s: Space, t: Space, q: Path, a: nat)
    requires Freeing(s, t, q, a, ENTRIES) && a in t.own && t.own[a] == q
    ensures Inv(Released(t, a), q) && NoLeaves(t.mem, Released(t, a).at)
  {
    var u := Released(t, a);
    var at, own, free := u.at, u.own, u.free;
    forall p: Path, j: nat ensures EntryOk(t.mem, at, q, p, j) { assert EntryOk(t.mem, t.at, Root, p, j); }
    forall p: Path ensures PathOk(t.mem, at, own, p) {
      assert PathOk(t.mem, t.at, t.own, p) && PathOk(t.mem, t.at, t.own, q) && PathLeft(s, t, Under(q, ENTRIES, p), p);
      assert p.Low? ==> PathOk(t.mem, t.at, t.own, Mid(p.j2));
    }
    forall b: nat ensures OwnOk(at, own, b) { assert OwnOk(t.at, t.own, b); }
    forall k: nat ensures FreePage(t.mem, free, own, k) { if k > 0 { assert FreePage(t.mem, t.free, t.own, k - 1); } }
    forall j: nat, k: nat ensures Differ(free, j, k) {
      if 0 < j < k { assert Differ(t.free, j - 1, k - 1); }
      if j == 0 < k { assert FreePage(t.mem, t.free, t.own, k - 1); }
    }
    forall p: Path, j: nat ensures LeafFree(t.mem, at, p, j) { assert LeafFree(t.mem, t.at, p, j); }
  }

  /** uvmfree: the first n pages, which are all that is mapped, go to kfree and every table page
      is on the free list, once. */
  method UvmFree(m: Tables, n: nat) returns (freed: seq<nat>, t: Space)
    requires n <= MAXVPN && forall v: nat :: n <= v ==> !Valid(Flat(m.s, v))
    modifies m
    ensures freed == Leads(old(m.s), 0, n) && t.at == map[] && t.own == map[] && PagesKept(old(m.s), t) && Inv(t, Root)
    ensures forall a: nat :: a in old(m.s.own) ==> a in t.free
  {
    freed := m.Unmap(0, n);
    UnmappedLeaves(old(m.s), m.s, n);
    ghost var s := m.s;
    t := Freewalk(m.s, m.s.root, Root);
    FreedAll(s, t);
    forall a: nat ensures PageKept(old(m.s), t, a) { assert PageKept(old(m.s), s, a) && PageKept(s, t, a); }
    forall a: nat | a in old(m.s.own) ensures a in t.free { assert PageKept(old(m.s), t, a); }
  }

  lemma UnmappedLeaves(s: Space, t: Consistent, n: nat)
    requires Unmapped(s, t, 0, n) && forall v: nat :: n <= v ==> !Valid(Flat(s, v))
    ensures NoLeaves(t.mem, t.at)
  {
    forall p: Path, i: nat ensures LeafFree(t.mem, t.at, p, i) {
      if p in t.at && p.Low? && i < ENTRIES {
        var v := (p.j2 * 512 + p.j1) * 512 + i;
        assert PathOk(t.mem, t.at, t.own, p);
        IndicesOf(p.j2, p.j1, i);
        assert UnmappedAt(s, t, 0, n, v);
      }
    }
  }

  lemma IndicesOf(i: nat, j: nat, k: nat)
    requires j < 512 && k < 512
    ensures var v := (i * 512 + j) * 512 + k; Px2(v) == i && Px1(v) == j && Px0(v) == k
  {
    var v := (i * 512 + j) * 512 + k;
    assert v / 512 == i * 512 + j;
    assert v / 262144 == v / 512 / 512;
  }

  lemma FreedAll(s: Space, t: Space)
    requires Freed(s, t, Root)
    ensures t.at == map[] && t.own == map[] && Inv(t, Root)
    ensures forall a: nat :: a in s.own ==> a in t.free
  {
    forall p: Path ensures p !in t.at { assert PathLeft(s, t, Below(p, Root), p); }
    assert t.at == map[];
    forall a: nat ensures a !in t.own { assert OwnOk(t.at, t.own, a); }
    assert t.own == map[];
    forall a: nat | a in s.own ensures a in t.free { assert PageKept(s, t, a); }
  }

  // ---------------------------------------------------------------- the references of CowMemory

  predicate NodeMatches(at: map<Path, nat>, refs: Refs, p: Pid, q: Path) {
    if q in at then Node(p, q) in refs && refs[Node(p, q)] == Plain(at[q]) else Node(p, q) !in refs
  }

  predicate LeafMatches(w: nat, refs: Refs, p: Pid, v: nat) {
    if Valid(w) then Leaf(p, v) in refs && refs[Leaf(p, v)] == Decode(w) else Leaf(p, v) !in refs
  }

  ghost predicate FlatMatches(s: Space, refs: Refs, p: Pid, v: nat) {
    v < TRAPFRAME ==> LeafMatches(Flat(s, v), refs, p, v)
  }

  /** The words of p's page table are the references that CowMemory speaks of. */
  ghost predicate Represents(s: Space, refs: Refs, p: Pid) {
    (forall q: Path :: NodeMatches(s.at, refs, p, q)) && (forall v: nat :: FlatMatches(s, refs, p, v))
  }

  /** The hardware finds page v of p exactly where the machine has a reference. */
  lemma TranslateIsRef(s: Consistent, refs: Refs, p: Pid, v: nat)
    requires Represents(s, refs, p) && v < TRAPFRAME
    ensures LeafMatches(Translate(s.mem, s.root, v), refs, p, v)
  {
    TranslateIsFlat(s, v);
    assert FlatMatches(s, refs, p, v);
  }

  lemma GrownRepresents(s: Consistent, refs: Refs, p: Pid, q: Path, i: nat)
    requires Represents(s, refs, p) && CanGrow(s, q, i)
    ensures Represents(Grown(s, q, i), refs[Node(p, Child(q, i)) := Plain(s.free[0])], p)
  {
    NoChild(s, q, i);
    GrownExtends(s, q, i);
    var t, r := Grown(s, q, i), refs[Node(p, Child(q, i)) := Plain(s.free[0])];
    var at := t.at;
    forall c: Path ensures NodeMatches(at, r, p, c) { assert NodeMatches(s.at, refs, p, c); }
    forall v: nat ensures FlatMatches(t, r, p, v) { assert FlatMatches(s, refs, p, v) && SameFlat(s, t, v); }
  }

  lemma MapRepresents(s: Consistent, refs: Refs, p: Pid, v: nat, e: Pte)
    requires Represents(s, refs, p) && v < TRAPFRAME && LowPath(v) in s.at
    ensures LowPage(s, s.at[LowPath(v)])
    ensures Represents(Put(s, s.at[LowPath(v)], Px0(v), Encode(e)), refs[Leaf(p, v) := e], p)
  {
    PutSlot(s, v, Encode(e));
    EncodeRoundTrip(e);
    var t, r, w := Put(s, s.at[LowPath(v)], Px0(v), Encode(e)), refs[Leaf(p, v) := e], Encode(e);
    forall c: Path ensures NodeMatches(s.at, r, p, c) { assert NodeMatches(s.at, refs, p, c); }
    forall u: nat ensures FlatMatches(t, r, p, u) { assert FlatMatches(s, refs, p, u) && EntryAt(s, t, v, w, u); }
  }

  lemma UnmapRepresents(s: Consistent, refs: Refs, p: Pid, v: nat)
    requires Represents(s, refs, p) && v < TRAPFRAME && LowPath(v) in s.at
    ensures LowPage(s, s.at[LowPath(v)])
    ensures Represents(Put(s, s.at[LowPath(v)], Px0(v), 0), refs - {Leaf(p, v)}, p)
  {
    PutSlot(s, v, 0);
    var t, r := Put(s, s.at[LowPath(v)], Px0(v), 0), refs - {Leaf(p, v)};
    forall c: Path ensures NodeMatches(s.at, r, p, c) { assert NodeMatches(s.at, refs, p, c); }
    forall u: nat ensures FlatMatches(t, r, p, u) { assert FlatMatches(s, refs, p, u) && EntryAt(s, t, v, 0, u); }
  }
}
