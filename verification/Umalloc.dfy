/** malloc, free and morecore of user/umalloc.c: Kernighan and Ritchie's allocator, whose free
  blocks form a circular list in address order.

  Addresses and sizes are counted in header units.  base, the header that starts the list, lies
  below the heap. */
module Umalloc {
  import opened Basics

  function Succ(ring: seq<nat>, i: nat): nat {
    if i + 1 < |ring| then i + 1 else 0
  }

  // ---------------------------------------------------------------- invariant

  /** Blocks in the list are in address order. */
  predicate OrderAt(size: map<nat, nat>, ring: seq<nat>, i: nat, j: nat) {
    i < j < |ring| ==> ring[i] in size && ring[i] < ring[j] && ring[i] + size[ring[i]] <= ring[j]
  }

  /** Entries i and i + 1 do not touch. */
  predicate ApartAt(size: map<nat, nat>, ring: seq<nat>, i: nat) {
    i + 1 < |ring| && ring[i] in size ==> ring[i] + size[ring[i]] != ring[i + 1]
  }

  /** Fully coalesced. */
  ghost predicate Apart(size: map<nat, nat>, ring: seq<nat>) {
    forall i: nat :: ApartAt(size, ring, i)
  }

  /** The links go round the list; only base is empty. */
  predicate LinkAt(next: map<nat, nat>, size: map<nat, nat>, ring: seq<nat>, i: nat) {
    i < |ring| ==> && ring[i] in next && next[ring[i]] == ring[Succ(ring, i)]
                   && ring[i] in size && (size[ring[i]] == 0 <==> i == 0)
  }

  ghost predicate ListOk(next: map<nat, nat>, size: map<nat, nat>, ring: seq<nat>) {
    ring != [] && (forall i: nat, j: nat :: OrderAt(size, ring, i, j)) && (forall i: nat :: LinkAt(next, size, ring, i))
  }

  predicate IsBlock(ring: seq<nat>, live: set<nat>, h: nat) {
    h in ring || h in live
  }

  /** own tells for every unit obtained from sbrk which block it belongs to. */
  predicate OwnAt(size: map<nat, nat>, ring: seq<nat>, live: set<nat>, own: map<nat, nat>, u: nat) {
    u in own ==> var h := own[u]; IsBlock(ring, live, h) && h in size && h <= u < h + size[h]
  }

  predicate BlockAt(size: map<nat, nat>, ring: seq<nat>, live: set<nat>, own: map<nat, nat>, h: nat, u: nat) {
    IsBlock(ring, live, h) ==> h in size && (h <= u < h + size[h] ==> u in own && own[u] == h)
  }

  predicate LiveAt(size: map<nat, nat>, ring: seq<nat>, live: set<nat>, h: nat) {
    h in live ==> h in size && size[h] >= 1 && h !in ring && (ring != [] ==> ring[0] < h)
  }

  /** Every unit belongs to exactly one block, and every block is free or live. */
  ghost predicate UnitsOk(size: map<nat, nat>, ring: seq<nat>, live: set<nat>, own: map<nat, nat>) {
    && (forall u: nat :: OwnAt(size, ring, live, own, u))
    && (forall h: nat, u: nat :: BlockAt(size, ring, live, own, h, u))
    && (forall h: nat :: LiveAt(size, ring, live, h))
  }

  // ---------------------------------------------------------------- where a block belongs

  /** Block bp belongs between entries j and j + 1. */
  predicate Gap(ring: seq<nat>, bp: nat, j: nat) {
    j < |ring| && ring[j] < bp && (j + 1 < |ring| ==> bp < ring[j + 1])
  }

  /** The last entry below bp among the first n. */
  ghost function GapOf(ring: seq<nat>, bp: nat, n: nat): (j: nat)
    requires 0 < n <= |ring| && ring[0] < bp
    ensures j < n && ring[j] < bp && (j + 1 < n ==> bp <= ring[j + 1])
  {
    if ring[n - 1] < bp then n - 1 else GapOf(ring, bp, n - 1)
  }

  lemma GapFits(next: map<nat, nat>, size: map<nat, nat>, ring: seq<nat>, live: set<nat>, own: map<nat, nat>, bp: nat,
      j: nat)
    requires ListOk(next, size, ring) && UnitsOk(size, ring, live, own) && bp in live && Gap(ring, bp, j)
    ensures bp in size && ring[j] in size && ring[j] + size[ring[j]] <= bp
    ensures j + 1 < |ring| ==> bp + size[bp] <= ring[j + 1]
  {
    assert LiveAt(size, ring, live, bp) && LinkAt(next, size, ring, j);
    assert BlockAt(size, ring, live, own, bp, bp) && BlockAt(size, ring, live, own, ring[j], bp);
    if j + 1 < |ring| {
      assert LinkAt(next, size, ring, j + 1);
      assert BlockAt(size, ring, live, own, bp, ring[j + 1]);
      assert BlockAt(size, ring, live, own, ring[j + 1], ring[j + 1]);
    }
  }

  /** Steps round the list from entry j to entry g. */
  function Distance(n: nat, j: nat, g: nat): nat
    requires j < n && g < n
  {
    if j <= g then g - j else g + n - j
  }

  /** free's search for the place of bp, from freep on.  at is the index of freep. */
  method FindGap(next: map<nat, nat>, size: map<nat, nat>, ghost ring: seq<nat>, freep: nat, ghost at: nat, bp: nat)
    returns (p: nat, ghost j: nat)
    requires ListOk(next, size, ring) && at < |ring| && freep == ring[at] && ring[0] < bp && bp !in ring
    ensures j < |ring| && p == ring[j] && Gap(ring, bp, j)
  {
    p, j := freep, at;
    ghost var g := GapOf(ring, bp, |ring|);
    assert LinkAt(next, size, ring, j);
    while !(bp > p && bp < next[p]) && !(p >= next[p] && (bp > p || bp < next[p]))
      invariant j < |ring| && p == ring[j] && LinkAt(next, size, ring, j)
      decreases Distance(|ring|, j, g)
    {
      AtGap(next, size, ring, bp, g);
      p, j := next[p], Succ(ring, j);
      assert LinkAt(next, size, ring, j);
    }
    Stopped(next, size, ring, bp, j);
  }

  /** At the gap the loop stops. */
  lemma AtGap(next: map<nat, nat>, size: map<nat, nat>, ring: seq<nat>, bp: nat, g: nat)
    requires ListOk(next, size, ring) && g < |ring| && ring[g] < bp && bp !in ring
    requires (g + 1 < |ring| ==> bp <= ring[g + 1])
    ensures ring[g] in next && var p := ring[g]; (bp > p && bp < next[p]) || (p >= next[p] && (bp > p || bp < next[p]))
  {
    assert LinkAt(next, size, ring, g) && OrderAt(size, ring, 0, g);
  }

  /** Where the loop stops is the gap. */
  lemma Stopped(next: map<nat, nat>, size: map<nat, nat>, ring: seq<nat>, bp: nat, j: nat)
    requires ListOk(next, size, ring) && j < |ring| && ring[0] < bp && ring[j] in next
    requires var p := ring[j]; (bp > p && bp < next[p]) || (p >= next[p] && (bp > p || bp < next[p]))
    ensures Gap(ring, bp, j)
  {
    assert LinkAt(next, size, ring, j) && OrderAt(size, ring, j, j + 1);
  }

  // ---------------------------------------------------------------- list operations

  function Insert(ring: seq<nat>, j: nat, bp: nat): seq<nat>
    requires j < |ring|
  {
    ring[..j + 1] + [bp] + ring[j + 1..]
  }

  function Without(ring: seq<nat>, k: nat): seq<nat>
    requires k < |ring|
  {
    ring[..k] + ring[k + 1..]
  }

  lemma InsertList(next: map<nat, nat>, size: map<nat, nat>, ring: seq<nat>, bp: nat, j: nat)
    requires ListOk(next, size, ring) && Gap(ring, bp, j) && bp in size && size[bp] >= 1 && ring[j] in next
    requires ring[j] in size
    requires ring[j] + size[ring[j]] <= bp && (j + 1 < |ring| ==> bp + size[bp] <= ring[j + 1])
    ensures ListOk(next[bp := next[ring[j]]][ring[j] := bp], size, Insert(ring, j, bp))
  {
    var n, r := next[bp := next[ring[j]]][ring[j] := bp], Insert(ring, j, bp);
    forall a: nat, b: nat ensures OrderAt(size, r, a, b) {
      var a', b' := if a <= j then a else a - 1, if b <= j then b else b - 1;
      assert OrderAt(size, ring, a', b') && OrderAt(size, ring, a', j) && OrderAt(size, ring, j + 1, b');
      assert OrderAt(size, ring, j, b');
    }
    forall a: nat ensures LinkAt(n, size, r, a) {
      assert LinkAt(next, size, ring, if a <= j then a else a - 1) && LinkAt(next, size, ring, j);
      assert OrderAt(size, ring, a, j) && OrderAt(size, ring, j, if a <= j then a else a - 1);
      assert OrderAt(size, ring, j + 1, if a <= j then a else a - 1);
    }
  }

  lemma WithoutList(next: map<nat, nat>, size: map<nat, nat>, ring: seq<nat>, k: nat)
    requires ListOk(next, size, ring) && 0 < k < |ring|
    ensures ring[k] in next && ListOk(next[ring[k - 1] := next[ring[k]]], size, Without(ring, k))
  {
    assert LinkAt(next, size, ring, k) && LinkAt(next, size, ring, k - 1);
    var n, r := next[ring[k - 1] := next[ring[k]]], Without(ring, k);
    forall a: nat, b: nat ensures OrderAt(size, r, a, b) {
      assert OrderAt(size, ring, if a < k then a else a + 1, if b < k then b else b + 1);
    }
    forall a: nat ensures LinkAt(n, size, r, a) {
      var a' := if a < k then a else a + 1;
      assert LinkAt(next, size, ring, a') && OrderAt(size, ring, a', k - 1) && OrderAt(size, ring, k - 1, a');
    }
  }

  /** A block of the list gets another size, up to the next one. */
  lemma ResizeList(next: map<nat, nat>, size: map<nat, nat>, ring: seq<nat>, k: nat, n: nat)
    requires ListOk(next, size, ring) && 0 < k < |ring| && n >= 1 && (k + 1 < |ring| ==> ring[k] + n <= ring[k + 1])
    ensures ListOk(next, size[ring[k] := n], ring)
  {
    var z := size[ring[k] := n];
    assert LinkAt(next, size, ring, k);
    forall a: nat, b: nat ensures OrderAt(z, ring, a, b) {
      assert OrderAt(size, ring, a, b) && OrderAt(size, ring, a, k) && OrderAt(size, ring, k, a);
      assert OrderAt(size, ring, k + 1, b);
    }
    forall a: nat ensures LinkAt(next, z, ring, a) {
      assert LinkAt(next, size, ring, a) && OrderAt(size, ring, a, k) && OrderAt(size, ring, k, a);
    }
  }

  /** Sizes of blocks that are not in the list do not matter. */
  lemma OtherHeader(next: map<nat, nat>, size: map<nat, nat>, ring: seq<nat>, h: nat, n: nat)
    requires ListOk(next, size, ring) && h !in ring
    ensures ListOk(next, size[h := n], ring)
  {
    var z := size[h := n];
    forall a: nat, b: nat ensures OrderAt(z, ring, a, b) { assert OrderAt(size, ring, a, b); }
    forall a: nat ensures LinkAt(next, z, ring, a) { assert LinkAt(next, size, ring, a); }
  }

  // ---------------------------------------------------------------- units

  /** Block a becomes part of block b. */
  ghost function Reown(own: map<nat, nat>, a: nat, b: nat): map<nat, nat> {
    map u | u in own :: if own[u] == a then b else own[u]
  }

  lemma InsertUnits(size: map<nat, nat>, ring: seq<nat>, live: set<nat>, own: map<nat, nat>, bp: nat, j: nat)
    requires UnitsOk(size, ring, live, own) && bp in live && j < |ring|
    ensures UnitsOk(size, Insert(ring, j, bp), live - {bp}, own)
  {
    var r, l := Insert(ring, j, bp), live - {bp};
    forall h: nat ensures IsBlock(r, l, h) <==> IsBlock(ring, live, h) { InsertHas(ring, j, bp, h); }
    forall u: nat ensures OwnAt(size, r, l, own, u) { assert OwnAt(size, ring, live, own, u); }
    forall h: nat, u: nat ensures BlockAt(size, r, l, own, h, u) { assert BlockAt(size, ring, live, own, h, u); }
    forall h: nat ensures LiveAt(size, r, l, h) { assert LiveAt(size, ring, live, h); InsertHas(ring, j, bp, h); }
  }

  lemma InsertHas(ring: seq<nat>, j: nat, bp: nat, h: nat)
    requires j < |ring|
    ensures h in Insert(ring, j, bp) <==> h == bp || h in ring
    ensures Insert(ring, j, bp)[0] == ring[0]
  {
    assert ring == ring[..j + 1] + ring[j + 1..];
  }

  lemma WithoutHas(size: map<nat, nat>, ring: seq<nat>, k: nat, h: nat)
    requires 0 < k < |ring| && forall i: nat, j: nat :: OrderAt(size, ring, i, j)
    ensures h in Without(ring, k) <==> h != ring[k] && h in ring
    ensures Without(ring, k)[0] == ring[0]
  {
    assert ring == ring[..k] + [ring[k]] + ring[k + 1..];
    forall i: nat | i < |ring| && i != k ensures ring[i] != ring[k] {
      assert OrderAt(size, ring, i, k) && OrderAt(size, ring, k, i);
    }
  }

  lemma WithoutUnits(next: map<nat, nat>, size: map<nat, nat>, ring: seq<nat>, live: set<nat>, own: map<nat, nat>,
      k: nat)
    requires ListOk(next, size, ring) && UnitsOk(size, ring, live, own) && 0 < k < |ring|
    ensures UnitsOk(size, Without(ring, k), live + {ring[k]}, own)
  {
    var r, l := Without(ring, k), live + {ring[k]};
    assert LinkAt(next, size, ring, k) && OrderAt(size, ring, 0, k);
    forall h: nat ensures IsBlock(r, l, h) <==> IsBlock(ring, live, h) { WithoutHas(size, ring, k, h); }
    forall u: nat ensures OwnAt(size, r, l, own, u) { assert OwnAt(size, ring, live, own, u); }
    forall h: nat, u: nat ensures BlockAt(size, r, l, own, h, u) { assert BlockAt(size, ring, live, own, h, u); }
    forall h: nat ensures LiveAt(size, r, l, h) { assert LiveAt(size, ring, live, h); WithoutHas(size, ring, k, h); }
  }

  /** Entry k absorbs entry k + 1, which it touches. */
  lemma MergeUnits(next: map<nat, nat>, size: map<nat, nat>, ring: seq<nat>, live: set<nat>, own: map<nat, nat>,
      k: nat, z: map<nat, nat>)
    requires ListOk(next, size, ring) && UnitsOk(size, ring, live, own) && k + 1 < |ring| && ring[k] in size
    requires ring[k + 1] in size
    requires ring[k] + size[ring[k]] == ring[k + 1] && z == size[ring[k] := size[ring[k]] + size[ring[k + 1]]]
    ensures UnitsOk(z, Without(ring, k + 1), live, Reown(own, ring[k + 1], ring[k]))
  {
    var r, o := Without(ring, k + 1), Reown(own, ring[k + 1], ring[k]);
    assert OrderAt(size, ring, k, k + 1);
    forall h: nat ensures IsBlock(r, live, h) <==> IsBlock(ring, live, h) && h != ring[k + 1] {
      WithoutHas(size, ring, k + 1, h);
      assert LiveAt(size, ring, live, ring[k + 1]);
    }
    forall u: nat ensures OwnAt(z, r, live, o, u) {
      assert OwnAt(size, ring, live, own, u);
    }
    forall h: nat, u: nat ensures BlockAt(z, r, live, o, h, u) {
      assert BlockAt(size, ring, live, own, h, u) && BlockAt(size, ring, live, own, ring[k + 1], u);
      assert OwnAt(size, ring, live, own, u);
    }
    forall h: nat ensures LiveAt(z, r, live, h) {
      assert LiveAt(size, ring, live, h); WithoutHas(size, ring, k + 1, h);
    }
  }

  lemma MergeList(next: map<nat, nat>, size: map<nat, nat>, ring: seq<nat>, k: nat)
    requires ListOk(next, size, ring) && k + 1 < |ring| && ring[k] in size && ring[k + 1] in size
    requires ring[k] + size[ring[k]] == ring[k + 1]
    ensures ring[k + 1] in next && 0 < k
    ensures ListOk(next[ring[k] := next[ring[k + 1]]], size[ring[k] := size[ring[k]] + size[ring[k + 1]]],
      Without(ring, k + 1))
  {
    WithoutList(next, size, ring, k + 1);
    assert LinkAt(next, size, ring, 0) && OrderAt(size, ring, 0, 1) && OrderAt(size, ring, k + 1, k + 2);
    var r := Without(ring, k + 1);
    assert LinkAt(next, size, ring, k) && LinkAt(next, size, ring, k + 1);
    ResizeList(next[ring[k] := next[ring[k + 1]]], size, r, k, size[ring[k]] + size[ring[k + 1]]);
  }

  // ---------------------------------------------------------------- what free and malloc keep

  ghost predicate HeapOk(next: map<nat, nat>, size: map<nat, nat>, ring: seq<nat>, live: set<nat>, own: map<nat, nat>) {
    ListOk(next, size, ring) && UnitsOk(size, ring, live, own)
  }

  /** Only entries j and j + 1 may touch their successors. */
  ghost predicate ApartBut(size: map<nat, nat>, ring: seq<nat>, j: nat, k: nat) {
    forall i: nat :: i != j && i != k ==> ApartAt(size, ring, i)
  }

  lemma InsertOk(next: map<nat, nat>, size: map<nat, nat>, ring: seq<nat>, live: set<nat>, own: map<nat, nat>, bp: nat,
      j: nat)
    requires HeapOk(next, size, ring, live, own) && Apart(size, ring) && bp in live && Gap(ring, bp, j)
    ensures ring[j] in next
    ensures HeapOk(next[bp := next[ring[j]]][ring[j] := bp], size, Insert(ring, j, bp), live - {bp}, own)
    ensures ApartBut(size, Insert(ring, j, bp), j, j + 1)
  {
    GapFits(next, size, ring, live, own, bp, j);
    assert LinkAt(next, size, ring, j) && LiveAt(size, ring, live, bp);
    InsertList(next, size, ring, bp, j);
    InsertUnits(size, ring, live, own, bp, j);
    var r := Insert(ring, j, bp);
    forall i: nat | i != j && i != j + 1 ensures ApartAt(size, r, i) {
      assert ApartAt(size, ring, if i < j then i else i - 1);
    }
  }

  lemma MergeOk(next: map<nat, nat>, size: map<nat, nat>, ring: seq<nat>, live: set<nat>, own: map<nat, nat>, k: nat)
    requires HeapOk(next, size, ring, live, own) && k + 1 < |ring| && ring[k] in size && ring[k + 1] in size
    requires ring[k] + size[ring[k]] == ring[k + 1]
    ensures ring[k + 1] in next && 0 < k
    ensures HeapOk(next[ring[k] := next[ring[k + 1]]], size[ring[k] := size[ring[k]] + size[ring[k + 1]]],
      Without(ring, k + 1),
      live, Reown(own, ring[k + 1], ring[k]))
  {
    MergeList(next, size, ring, k);
    MergeUnits(next, size, ring, live, own, k, size[ring[k] := size[ring[k]] + size[ring[k + 1]]]);
  }

  /** A merge leaves the other entries as far apart as they were. */
  lemma MergeApart(next: map<nat, nat>, size: map<nat, nat>, ring: seq<nat>, k: nat, j: nat, z: map<nat, nat>,
      r: seq<nat>)
    requires ListOk(next, size, ring) && k + 1 < |ring| && ring[k] in size && ring[k + 1] in size
    requires ring[k] + size[ring[k]] == ring[k + 1] && ApartBut(size, ring, j, k) && (j == k || j + 1 == k)
    requires z == size[ring[k] := size[ring[k]] + size[ring[k + 1]]] && r == Without(ring, k + 1)
    ensures if j == k then Apart(z, r) else ApartBut(z, r, j, j)
  {
    forall i: nat | i != j || j == k ensures ApartAt(z, r, i) {
      if i + 1 < |r| {
        if i == k {
          assert ApartAt(size, ring, k + 1);
        } else {
          assert ApartAt(size, ring, if i < k then i else i + 1);
          assert OrderAt(size, ring, i, k) && OrderAt(size, ring, k, i) && OrderAt(size, ring, k, i + 1);
          assert LinkAt(next, size, ring, if i < k then i else i + 1);
        }
      }
    }
  }

  // ---------------------------------------------------------------- free

  /** The list and the owners after free has dealt with the upper neighbour. */
  ghost function UpperRing(size: map<nat, nat>, ring: seq<nat>, j: nat, bp: nat): seq<nat>
    requires j < |ring| && bp in size
  {
    if j + 1 < |ring| && bp + size[bp] == ring[j + 1] then Without(Insert(ring, j, bp), j + 2) else Insert(ring, j, bp)
  }

  ghost function UpperOwn(size: map<nat, nat>, ring: seq<nat>, own: map<nat, nat>, j: nat, bp: nat): map<nat, nat>
    requires j < |ring| && bp in size
  {
    if j + 1 < |ring| && bp + size[bp] == ring[j + 1] then Reown(own, ring[j + 1], bp) else own
  }

  lemma UpperOk(next: map<nat, nat>, size: map<nat, nat>, ring: seq<nat>, live: set<nat>, own: map<nat, nat>, bp: nat,
      j: nat, n: map<nat, nat>, z: map<nat, nat>)
    requires HeapOk(next, size, ring, live, own) && Apart(size, ring) && bp in live && Gap(ring, bp, j) && bp in size
    requires ring[j] in next && next[ring[j]] in next && next[ring[j]] in size
    requires if bp + size[bp] == next[ring[j]] then
               n == next[bp := next[next[ring[j]]]] && z == size[bp := size[bp] + size[next[ring[j]]]]
             else n == next[bp := next[ring[j]]] && z == size
    ensures var r := UpperRing(size, ring, j, bp);
      && HeapOk(n[ring[j] := bp], z, r, live - {bp}, UpperOwn(size, ring, own, j, bp)) && ApartBut(z, r, j, j)
      && j + 1 < |r| && r[j] == ring[j] && r[j + 1] == bp && r[0] == ring[0] && ring[j] != bp
  {
    var p, r1 := ring[j], Insert(ring, j, bp);
    assert LinkAt(next, size, ring, j) && LiveAt(size, ring, live, bp) && OrderAt(size, ring, 0, j);
    InsertOk(next, size, ring, live, own, bp, j);
    if bp + size[bp] == next[p] {
      var n1 := next[bp := next[p]][p := bp];
      UpperMerge(next, size, ring, live, own, bp, j, n1);
      assert LinkAt(next, size, ring, j + 1) && OrderAt(size, ring, j, j + 1);
      assert n1[bp := n1[ring[j + 1]]] == n[p := bp];
    } else {
      assert next[bp := next[p]][p := bp] == n[p := bp];
      NotTouching(next, size, ring, r1, bp, j);
    }
  }

  /** A block that touches the successor of entry j is below it. */
  lemma NextIsAbove(next: map<nat, nat>, size: map<nat, nat>, ring: seq<nat>, bp: nat, j: nat)
    requires j < |ring| && Gap(ring, bp, j) && bp in size && LinkAt(next, size, ring, j) && OrderAt(size, ring, 0, j)
    requires bp + size[bp] == next[ring[j]]
    ensures j + 1 < |ring| && next[ring[j]] == ring[j + 1]
  {
  }

  lemma InsertAt(ring: seq<nat>, j: nat, bp: nat)
    requires j + 1 < |ring|
    ensures |Insert(ring, j, bp)| == |ring| + 1 && Insert(ring, j, bp)[j + 1] == bp
    ensures Insert(ring, j, bp)[j + 2] == ring[j + 1]
  {
  }

  lemma UpperMerge(next: map<nat, nat>, size: map<nat, nat>, ring: seq<nat>, live: set<nat>, own: map<nat, nat>,
      bp: nat, j: nat, n: map<nat, nat>)
    requires j < |ring| && Gap(ring, bp, j) && bp in size && LinkAt(next, size, ring, j) && OrderAt(size, ring, 0, j)
    requires HeapOk(n, size, Insert(ring, j, bp), live - {bp}, own) && ApartBut(size, Insert(ring, j, bp), j, j + 1)
    requires bp + size[bp] == next[ring[j]]
    ensures j + 1 < |ring| && ring[j + 1] in size && ring[j + 1] in n
    ensures var z, r := size[bp := size[bp] + size[ring[j + 1]]], UpperRing(size, ring, j, bp);
      HeapOk(n[bp := n[ring[j + 1]]], z, r, live - {bp}, UpperOwn(size, ring, own, j, bp)) && ApartBut(z, r, j, j)
  {
    var r1 := Insert(ring, j, bp);
    NextIsAbove(next, size, ring, bp, j);
    InsertAt(ring, j, bp);
    assert LinkAt(n, size, r1, j + 2);
    MergeOk(n, size, r1, live - {bp}, own, j + 1);
    MergeApart(n, size, r1, j + 1, j, size[bp := size[bp] + size[ring[j + 1]]], UpperRing(size, ring, j, bp));
  }

  lemma NotTouching(next: map<nat, nat>, size: map<nat, nat>, ring: seq<nat>, r: seq<nat>, bp: nat, j: nat)
    requires j < |ring| && r == Insert(ring, j, bp) && bp in size && LinkAt(next, size, ring, j)
    requires bp + size[bp] != next[ring[j]]
    requires ApartBut(size, r, j, j + 1)
    ensures ApartBut(size, r, j, j)
  {
    forall i: nat | i != j ensures ApartAt(size, r, i) {
      if i == j + 1 && i + 1 < |r| { assert r[i + 1] == ring[j + 1]; }
    }
  }

  ghost function LowerRing(size: map<nat, nat>, ring: seq<nat>, j: nat): seq<nat>
    requires j + 1 < |ring| && ring[j] in size
  {
    if ring[j] + size[ring[j]] == ring[j + 1] then Without(ring, j + 1) else ring
  }

  ghost function LowerOwn(size: map<nat, nat>, ring: seq<nat>, own: map<nat, nat>, j: nat): map<nat, nat>
    requires j + 1 < |ring| && ring[j] in size
  {
    if ring[j] + size[ring[j]] == ring[j + 1] then Reown(own, ring[j + 1], ring[j]) else own
  }

  lemma LowerOk(next: map<nat, nat>, size: map<nat, nat>, ring: seq<nat>, live: set<nat>, own: map<nat, nat>, j: nat)
    requires HeapOk(next, size, ring, live, own) && ApartBut(size, ring, j, j) && j + 1 < |ring|
    requires ring[j] in size && ring[j + 1] in size && ring[j + 1] in next
    ensures var touch := ring[j] + size[ring[j]] == ring[j + 1];
      var n := if touch then next[ring[j] := next[ring[j + 1]]] else next;
      var z := if touch then size[ring[j] := size[ring[j]] + size[ring[j + 1]]] else size;
      var r := LowerRing(size, ring, j);
      HeapOk(n, z, r, live, LowerOwn(size, ring, own, j)) && Apart(z, r) && j < |r| && r[j] == ring[j]
      && r[0] == ring[0]
  {
    if ring[j] + size[ring[j]] == ring[j + 1] {
      MergeOk(next, size, ring, live, own, j);
      MergeApart(next, size, ring, j, j, size[ring[j] := size[ring[j]] + size[ring[j + 1]]], Without(ring, j + 1));
    } else {
      forall i: nat ensures ApartAt(size, ring, i) {
      }
    }
  }

  // ---------------------------------------------------------------- malloc

  /** Entry f of the list has room for n units. */
  predicate FitAt(size: map<nat, nat>, ring: seq<nat>, f: nat, n: nat) {
    f < |ring| && ring[f] in size && size[ring[f]] >= n
  }

  /** A block that fits exactly leaves the list. */
  lemma TakeOk(next: map<nat, nat>, size: map<nat, nat>, ring: seq<nat>, live: set<nat>, own: map<nat, nat>, k: nat)
    requires HeapOk(next, size, ring, live, own) && Apart(size, ring) && 0 < k < |ring|
    ensures ring[k] in next && Apart(size, Without(ring, k))
    ensures HeapOk(next[ring[k - 1] := next[ring[k]]], size, Without(ring, k), live + {ring[k]}, own)
  {
    WithoutList(next, size, ring, k);
    WithoutUnits(next, size, ring, live, own, k);
    var r := Without(ring, k);
    forall i: nat ensures ApartAt(size, r, i) {
      assert ApartAt(size, ring, if i < k then i else i + 1);
      if i + 1 == k && i + 1 < |r| {
        assert ApartAt(size, ring, i) && OrderAt(size, ring, i, k) && OrderAt(size, ring, k, k + 1);
      }
    }
  }

  /** The tail of block p from q on becomes a block of its own. */
  ghost function SplitOwn(own: map<nat, nat>, p: nat, q: nat): map<nat, nat> {
    map u | u in own :: if own[u] == p && u >= q then q else own[u]
  }

  lemma SplitFresh(next: map<nat, nat>, size: map<nat, nat>, ring: seq<nat>, live: set<nat>, own: map<nat, nat>,
      k: nat, q: nat)
    requires HeapOk(next, size, ring, live, own) && 0 < k < |ring| && ring[k] in size
    requires ring[k] < q < ring[k] + size[ring[k]]
    ensures !IsBlock(ring, live, q)
  {
    assert LinkAt(next, size, ring, k) && BlockAt(size, ring, live, own, ring[k], q);
    assert LiveAt(size, ring, live, q) && BlockAt(size, ring, live, own, q, q) && OrderAt(size, ring, 0, k);
    forall i: nat | i < |ring| ensures ring[i] != q {
      assert LinkAt(next, size, ring, i);
    }
  }

  lemma SplitOk(next: map<nat, nat>, size: map<nat, nat>, ring: seq<nat>, live: set<nat>, own: map<nat, nat>, k: nat,
      n: nat, z: map<nat, nat>, q: nat)
    requires HeapOk(next, size, ring, live, own) && Apart(size, ring) && 0 < k < |ring| && ring[k] in size
    requires 1 <= n < size[ring[k]]
    requires q == ring[k] + size[ring[k]] - n && z == size[ring[k] := size[ring[k]] - n][q := n]
    ensures HeapOk(next, z, ring, live + {q}, SplitOwn(own, ring[k], q)) && Apart(z, ring) && !IsBlock(ring, live, q)
  {
    var p := ring[k];
    SplitFresh(next, size, ring, live, own, k, q);
    assert OrderAt(size, ring, k, k + 1);
    ResizeList(next, size, ring, k, size[p] - n);
    OtherHeader(next, size[p := size[p] - n], ring, q, n);
    SplitUnits(next, size, ring, live, own, k, n, z, q);
    forall i: nat ensures ApartAt(z, ring, i) {
      assert ApartAt(size, ring, i) && OrderAt(size, ring, i, i + 1);
    }
  }

  lemma SplitUnits(next: map<nat, nat>, size: map<nat, nat>, ring: seq<nat>, live: set<nat>, own: map<nat, nat>,
      k: nat, n: nat, z: map<nat, nat>, q: nat)
    requires HeapOk(next, size, ring, live, own) && 0 < k < |ring| && ring[k] in size && 1 <= n < size[ring[k]]
    requires q == ring[k] + size[ring[k]] - n && z == size[ring[k] := size[ring[k]] - n][q := n]
    requires !IsBlock(ring, live, q)
    ensures UnitsOk(z, ring, live + {q}, SplitOwn(own, ring[k], q))
  {
    var p, l, o := ring[k], live + {q}, SplitOwn(own, ring[k], q);
    assert LinkAt(next, size, ring, k) && OrderAt(size, ring, 0, k) && LiveAt(size, ring, live, p);
    forall u: nat ensures OwnAt(z, ring, l, o, u) { assert OwnAt(size, ring, live, own, u); }
    forall h: nat, u: nat ensures BlockAt(z, ring, l, o, h, u) {
      assert BlockAt(size, ring, live, own, h, u) && BlockAt(size, ring, live, own, p, u);
      assert OwnAt(size, ring, live, own, u);
    }
    forall h: nat ensures LiveAt(z, ring, l, h) { assert LiveAt(size, ring, live, h); }
  }

  /** New units from sbrk. */
  ghost function Grown(own: map<nat, nat>, hp: nat, n: nat): (o: map<nat, nat>)
    ensures forall u: nat :: u in o <==> u in own || hp <= u < hp + n
    ensures forall u: nat :: u in o ==> o[u] == if hp <= u < hp + n then hp else own[u]
    decreases n
  {
    if n == 0 then own else Grown(own, hp, n - 1)[hp + n - 1 := hp]
  }

  /** sbrk returned memory above everything so far. */
  ghost predicate Above(ring: seq<nat>, own: map<nat, nat>, hp: nat) {
    (forall h :: h in ring ==> h < hp) && forall u :: u in own ==> u < hp
  }

  lemma GrownOk(next: map<nat, nat>, size: map<nat, nat>, ring: seq<nat>, live: set<nat>, own: map<nat, nat>, hp: nat,
      n: nat)
    requires HeapOk(next, size, ring, live, own) && Apart(size, ring) && n >= 1 && Above(ring, own, hp)
    ensures HeapOk(next, size[hp := n], ring, live + {hp}, Grown(own, hp, n)) && Apart(size[hp := n], ring)
    ensures hp !in live
  {
    var z, l, o := size[hp := n], live + {hp}, Grown(own, hp, n);
    OtherHeader(next, size, ring, hp, n);
    assert LiveAt(size, ring, live, hp) && BlockAt(size, ring, live, own, hp, hp) && ring[0] in ring;
    forall u: nat ensures OwnAt(z, ring, l, o, u) { assert OwnAt(size, ring, live, own, u); }
    forall h: nat, u: nat ensures BlockAt(z, ring, l, o, h, u) {
      assert BlockAt(size, ring, live, own, h, u);
    }
    forall h: nat ensures LiveAt(z, ring, l, h) { assert LiveAt(size, ring, live, h); }
    forall i: nat ensures ApartAt(z, ring, i) { assert ApartAt(size, ring, i); }
  }

  /** Position of entry x in the order in which malloc visits the list. */
  function Rank(n: nat, at: nat, x: nat): nat
    requires at < n && x < n
  {
    if x > at then x - at - 1 else x + n - at - 1
  }

  /** malloc's loop, once round the list from the entry after freep: the predecessor of the
      first block with room for n units. */
  method Scan(next: map<nat, nat>, size: map<nat, nat>, ghost ring: seq<nat>, freep: nat, ghost at: nat, n: nat)
    returns (r: Option<nat>, ghost k: nat)
    requires ListOk(next, size, ring) && at < |ring| && freep == ring[at] && n >= 1
    ensures r == None ==> forall f: nat :: !FitAt(size, ring, f, n)
    ensures r.Some? ==> 0 < k < |ring| && r.value == ring[k - 1] && FitAt(size, ring, k, n)
    ensures r.Some? ==> forall x: nat :: x < |ring| && Rank(|ring|, at, x) < Rank(|ring|, at, k) ==>
      !FitAt(size, ring, x, n)
  {
    assert LinkAt(next, size, ring, at) && LinkAt(next, size, ring, 0);
    var prevp, p := freep, next[freep];
    k := Succ(ring, at);
    assert LinkAt(next, size, ring, k);
    while size[p] < n
      invariant k < |ring| && p == ring[k] && LinkAt(next, size, ring, k)
        && prevp == ring[if k == 0 then |ring| - 1 else k - 1]
      invariant forall x: nat :: x < |ring| && Rank(|ring|, at, x) < Rank(|ring|, at, k) ==> !FitAt(size, ring, x, n)
      decreases |ring| - Rank(|ring|, at, k)
    {
      if p == freep {
        SameEntry(next, size, ring, k, at);
        return None, 0;
      }
      prevp, p, k := p, next[p], Succ(ring, k);
      assert LinkAt(next, size, ring, k);
    }
    r := Some(prevp);
  }

  class Allocator {
    const base: nat
    var next: map<nat, nat>
    var size: map<nat, nat>
    var freep: Option<nat>
    ghost var ring: seq<nat>
    ghost var at: nat
    ghost var live: set<nat>
    ghost var own: map<nat, nat>

    /** Before the first call of malloc there is no list; afterwards it is a coalesced ring in
        address order that starts with base, and the units from sbrk are divided up among its
        blocks and the live ones. */
    ghost predicate Valid()
      reads this
    {
      if freep == None then ring == [] && live == {} && own == map[]
      else
        && HeapOk(next, size, ring, live, own) && Apart(size, ring)
        && at < |ring| && ring[at] == freep.value && ring[0] == base
    }

    constructor (base: nat)
      ensures Valid() && this.base == base && live == {} && own == map[] && freep == None
    {
      this.base, next, size, freep := base, map[], map[], None;
      ring, at, live, own := [], 0, {}, map[];
    }

    /** The first half of free: bp takes over what follows p, and its upper neighbour if it
        touches. */
    method JoinUpper(bp: nat, p: nat, ghost j: nat)
      requires freep.Some? && HeapOk(next, size, ring, live, own) && Apart(size, ring) && ring[0] == base
      requires bp in live && Gap(ring, bp, j) && p == ring[j] && bp in size
      modifies this
      ensures freep == old(freep) && live == old(live) - {bp} && own.Keys == old(own.Keys)
      ensures HeapOk(next[p := bp], size, ring, live, own) && ApartBut(size, ring, j, j) && ring[0] == base
      ensures j + 1 < |ring| && ring[j] == p && ring[j + 1] == bp && p != bp
      ensures bp in next && forall h :: h in live ==> h in size && h in old(size) && size[h] == old(size)[h]
      ensures bp in size && size[bp] >= old(size)[bp]
    {
      assert LinkAt(next, size, ring, j) && LinkAt(next, size, ring, Succ(ring, j));
      ghost var r, o := UpperRing(size, ring, j, bp), UpperOwn(size, ring, own, j, bp);
      var nx := next[p];
      if bp + size[bp] == nx {
        size := size[bp := size[bp] + size[nx]];
        next := next[bp := next[nx]];
      } else {
        next := next[bp := nx];
      }
      UpperOk(old(next), old(size), ring, live, own, bp, j, next, size);
      LiveSizes(old(size), ring, live);
      ring, live, own := r, live - {bp}, o;
    }

    /** The second half of free, if p and bp touch: p takes bp over. */
    method Absorb(bp: nat, p: nat, ghost j: nat)
      requires freep.Some? && HeapOk(next[p := bp], size, ring, live, own) && ApartBut(size, ring, j, j)
      requires ring[0] == base && j + 1 < |ring| && ring[j] == p && ring[j + 1] == bp && p != bp && bp in next
      requires bp in size && p in size && p + size[p] == bp
      modifies this
      ensures Valid() && freep.Some? && live == old(live) && own.Keys == old(own.Keys)
      ensures FitAt(size, ring, at, old(size)[bp])
      ensures size == old(size)[p := old(size)[p] + old(size)[bp]] && p !in live
    {
      ghost var n := next[p := bp];
      LowerOk(n, size, ring, live, own, j);
      LiveSizes(size, ring, live);
      ring, own, at := LowerRing(size, ring, j), LowerOwn(size, ring, own, j), j;
      size := size[p := size[p] + size[bp]];
      next := next[p := next[bp]];
      assert next == n[p := n[bp]];
      freep := Some(p);
    }

    /** If they do not, p links to bp. */
    method LinkTo(bp: nat, p: nat, ghost j: nat)
      requires freep.Some? && HeapOk(next[p := bp], size, ring, live, own) && ApartBut(size, ring, j, j)
      requires ring[0] == base && j + 1 < |ring| && ring[j] == p && ring[j + 1] == bp && p != bp && bp in next
      requires bp in size && p in size && p + size[p] != bp
      modifies this
      ensures Valid() && freep.Some? && live == old(live) && own == old(own) && size == old(size)
      ensures FitAt(size, ring, at + 1, size[bp])
    {
      LowerOk(next[p := bp], size, ring, live, own, j);
      next := next[p := bp];
      freep := Some(p);
      at := j;
    }

    method JoinLower(bp: nat, p: nat, ghost j: nat)
      requires freep.Some? && HeapOk(next[p := bp], size, ring, live, own) && ApartBut(size, ring, j, j)
      requires ring[0] == base
      requires j + 1 < |ring| && ring[j] == p && ring[j + 1] == bp && p != bp && bp in next && bp in size
      modifies this
      ensures Valid() && freep.Some? && live == old(live) && own.Keys == old(own.Keys)
      ensures FitAt(size, ring, at, old(size)[bp]) || FitAt(size, ring, at + 1, old(size)[bp])
      ensures forall h :: h in live ==> h in size && h in old(size) && size[h] == old(size)[h]
    {
      assert LinkAt(next[p := bp], size, ring, j);
      LiveSizes(size, ring, live);
      if p + size[p] == bp {
        Absorb(bp, p, j);
      } else {
        LinkTo(bp, p, j);
      }
    }

    /** free: the block joins its neighbours in the list.  No unit is lost, and no other live
        block is touched. */
    method Free(bp: nat)
      requires Valid() && bp in live
      modifies this
      ensures Valid() && freep.Some? && live == old(live) - {bp} && own.Keys == old(own.Keys)
      ensures forall h :: h in live ==> h in size && h in old(size) && size[h] == old(size)[h]
      ensures bp in old(size) && (FitAt(size, ring, at, old(size)[bp]) || FitAt(size, ring, at + 1, old(size)[bp]))
    {
      ghost var j: nat;
      var p;
      assert LiveAt(size, ring, live, bp);
      p, j := FindGap(next, size, ring, freep.value, at, bp);
      JoinUpper(bp, p, j);
      JoinLower(bp, p, j);
    }

    /** morecore: sbrk's memory becomes a free block.  sbrk is what sbrk returns, if called. */
    method Morecore(nu: nat, sbrk: Option<nat>) returns (ok: bool)
      requires Valid() && freep.Some? && nu >= 1 && (sbrk.Some? ==> Above(ring, own, sbrk.value))
      modifies this
      ensures Valid() && freep.Some? && live == old(live) && (ok <==> sbrk.Some?)
      ensures !ok ==> size == old(size) && own == old(own) && ring == old(ring)
      ensures ok ==> FitAt(size, ring, at, nu) || FitAt(size, ring, at + 1, nu)
      ensures ok ==> own.Keys == Grown(old(own), sbrk.value, if nu < 4096 then 4096 else nu).Keys
      ensures forall h :: h in live ==> h in size && h in old(size) && size[h] == old(size)[h]
    {
      LiveSizes(size, ring, live);
      if sbrk == None { return false; }
      var n := if nu < 4096 then 4096 else nu;
      var hp := sbrk.value;
      GrownOk(next, size, ring, live, own, hp, n);
      size := size[hp := n];
      live, own := live + {hp}, Grown(own, hp, n);
      Free(hp);
      ok := true;
    }

    /** malloc's search, with more memory from sbrk if nothing fits. */
    method FindFit(n: nat, sbrk: Option<nat>) returns (r: Option<nat>, ghost k: nat)
      requires Valid() && freep.Some? && n >= 1 && (sbrk.Some? ==> Above(ring, own, sbrk.value))
      modifies this
      ensures Valid() && freep.Some? && live == old(live)
      ensures forall h :: h in live ==> h in size && h in old(size) && size[h] == old(size)[h]
      ensures own.Keys == old(own.Keys) || (sbrk.Some?
        && own.Keys == Grown(old(own), sbrk.value, if n < 4096 then 4096 else n).Keys)
      ensures r == None ==> sbrk == None && forall f: nat :: !FitAt(size, ring, f, n)
      ensures (exists f: nat :: FitAt(old(size), old(ring), f, n)) ==> own.Keys == old(own.Keys)
      ensures r.Some? ==> 0 < k < |ring| && r.value == ring[k - 1] && FitAt(size, ring, k, n)
    {
      LiveSizes(size, ring, live);
      r, k := Scan(next, size, ring, freep.value, at, n);
      if r == None {
        var ok := Morecore(n, sbrk);
        if ok {
          r, k := Scan(next, size, ring, freep.value, at, n);
        }
      }
    }

    /** The block p after prevp is of the right size: it leaves the list. */
    method TakeWhole(prevp: nat, p: nat, ghost k: nat)
      requires Valid() && freep.Some? && 0 < k < |ring| && prevp == ring[k - 1] && p == ring[k] && p in next
      modifies this
      ensures Valid() && freep == Some(prevp) && p !in old(live) && live == old(live) + {p} && own == old(own)
      ensures size == old(size)
    {
      LiveSizes(size, ring, live);
      TakeOk(next, size, ring, live, own, k);
      next := next[prevp := next[p]];
      freep := Some(prevp);
      ring, at, live := Without(ring, k), k - 1, live + {p};
    }

    /** It is larger: the n units at its end become a block of their own. */
    method SplitOff(prevp: nat, p: nat, n: nat, ghost k: nat) returns (h: nat)
      requires Valid() && freep.Some? && 0 < k < |ring| && prevp == ring[k - 1] && p == ring[k]
      requires p in size && 1 <= n < size[p]
      modifies this
      ensures Valid() && freep == Some(prevp) && h !in old(live) && live == old(live) + {h} && own.Keys == old(own.Keys)
      ensures h != p && p !in old(live) && size == old(size)[p := old(size)[p] - n][h := n]
    {
      LiveSizes(size, ring, live);
      ghost var q := p + size[p] - n;
      SplitOk(next, size, ring, live, own, k, n, size[p := size[p] - n][q := n], q);
      size := size[p := size[p] - n];
      h := p + size[p];
      size := size[h := n];
      own := SplitOwn(own, p, h);
      freep := Some(prevp);
      at, live := k - 1, live + {h};
    }

    /** The block after prevp, or the n units at its end, become live. */
    method Carve(prevp: nat, n: nat, ghost k: nat) returns (h: nat)
      requires Valid() && freep.Some? && n >= 1 && 0 < k < |ring| && prevp == ring[k - 1] && FitAt(size, ring, k, n)
      modifies this
      ensures Valid() && freep == Some(prevp) && h !in old(live) && live == old(live) + {h} && own.Keys == old(own.Keys)
      ensures h in size && size[h] == n
      ensures forall g :: g in old(live) ==> g in size && g in old(size) && size[g] == old(size)[g]
    {
      LiveSizes(size, ring, live);
      assert LinkAt(next, size, ring, k - 1) && LinkAt(next, size, ring, k);
      var p := next[prevp];
      if size[p] == n {
        TakeWhole(prevp, p, k);
        h := p;
      } else {
        h := SplitOff(prevp, p, n, k);
      }
    }

    /** malloc: a block of its own that is large enough, or None if sbrk fails.  The first unit
        of a block is its header, so that the caller's memory starts at header + 1. */
    method Malloc(nbytes: nat, sbrk: Option<nat>) returns (r: Option<nat>)
      requires Valid() && (sbrk.Some? ==> base < sbrk.value && Above(ring, own, sbrk.value))
      modifies this
      ensures Valid() && freep.Some?
      ensures r == None ==> sbrk == None && live == old(live) && own.Keys == old(own.Keys) && forall f: nat ::
        !FitAt(size, ring, f, Units(nbytes))
      ensures r.Some? ==> r.value > 0 && var h := r.value - 1;
        h !in old(live) && live == old(live) + {h} && h in size && size[h] == Units(nbytes)
      ensures forall g :: g in old(live) ==> g in size && g in old(size) && size[g] == old(size)[g]
      ensures own.Keys == old(own.Keys) || (sbrk.Some?
        && own.Keys == Grown(old(own), sbrk.value, if Units(nbytes) < 4096 then 4096 else Units(nbytes)).Keys)
      ensures old(freep).Some? && (exists f: nat :: FitAt(old(size), old(ring), f, Units(nbytes))) ==>
        own.Keys == old(own.Keys)
    {
      var n := Units(nbytes);
      if freep == None {
        next, size, freep := map[base := base], map[base := 0], Some(base);
        ring, at := [base], 0;
        StartOk(base);
      }
      ghost var k;
      var prevp;
      prevp, k := FindFit(n, sbrk);
      if prevp == None {
        return None;
      }
      var h := Carve(prevp.value, n, k);
      r := Some(h + 1);
    }
  }

  /** Header units for a request: one for the header itself. */
  function Units(nbytes: nat): (n: nat)
    ensures 16 * (n - 1) >= nbytes > 16 * (n - 2) && n >= 1
  {
    (nbytes + 15) / 16 + 1
  }

  lemma StartOk(base: nat)
    ensures HeapOk(map[base := base], map[base := 0], [base], {}, map[]) && Apart(map[base := 0], [base])
  {
  }

  /** Live blocks do not overlap each other or the free ones. */
  lemma BlocksAreDisjoint(next: map<nat, nat>, size: map<nat, nat>, ring: seq<nat>, live: set<nat>, own: map<nat, nat>,
      g: nat, h: nat)
    requires HeapOk(next, size, ring, live, own) && g in live && IsBlock(ring, live, h) && g != h
    ensures g in size && h in size && (g + size[g] <= h || h + size[h] <= g)
  {
    assert LiveAt(size, ring, live, g) && LiveAt(size, ring, live, h);
    assert BlockAt(size, ring, live, own, g, h) && BlockAt(size, ring, live, own, h, g);
    assert BlockAt(size, ring, live, own, g, g) && BlockAt(size, ring, live, own, h, h);
    if h in ring {
      var i: nat :| i < |ring| && ring[i] == h;
      assert LinkAt(next, size, ring, i);
    }
  }

  /** Every unit obtained from sbrk belongs to exactly one block. */
  lemma UnitsAreConserved(size: map<nat, nat>, ring: seq<nat>, live: set<nat>, own: map<nat, nat>, u: nat)
    requires UnitsOk(size, ring, live, own)
    ensures u in own <==> exists h: nat :: Covers(size, ring, live, h, u)
    ensures forall g: nat, h: nat :: Covers(size, ring, live, g, u) && Covers(size, ring, live, h, u) ==> g == h
  {
    assert OwnAt(size, ring, live, own, u);
    if u in own { assert Covers(size, ring, live, own[u], u); }
    forall h: nat | Covers(size, ring, live, h, u) ensures u in own && own[u] == h {
      assert BlockAt(size, ring, live, own, h, u);
    }
  }

  predicate Covers(size: map<nat, nat>, ring: seq<nat>, live: set<nat>, h: nat, u: nat) {
    IsBlock(ring, live, h) && h in size && h <= u < h + size[h]
  }

  /** No address is in the list twice. */
  lemma SameEntry(next: map<nat, nat>, size: map<nat, nat>, ring: seq<nat>, i: nat, j: nat)
    requires ListOk(next, size, ring) && i < |ring| && j < |ring| && ring[i] == ring[j]
    ensures i == j
  {
    assert OrderAt(size, ring, i, j) && OrderAt(size, ring, j, i);
  }

  /** Sizes of live blocks are known, and they are not in the list. */
  lemma LiveSizes(size: map<nat, nat>, ring: seq<nat>, live: set<nat>)
    requires forall h: nat :: LiveAt(size, ring, live, h)
    ensures forall h: nat :: h in live ==> h in size && h !in ring
  {
    forall h: nat | h in live ensures h in size && h !in ring {
      assert LiveAt(size, ring, live, h);
    }
  }
}
