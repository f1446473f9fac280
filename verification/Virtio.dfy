/** The descriptors and rings of kernel/virtio_disk.c (sections 2.6 and 5.2 of the virtio 1.1
  specification), shared by any number of processes in virtio_disk_rw, the interrupt handler
  and a device that works on requests in any order. */
module Virtio {
  import opened Basics

  const NUM: nat := 8

  /** What a descriptor's address points to: a request header, a buffer's data, a status byte. */
  datatype Addr = Nowhere | Op(i: nat) | Data(b: nat) | Status(i: nat)

  /** more and writable are the flags VRING_DESC_F_NEXT and VRING_DESC_F_WRITE. */
  datatype Desc = Desc(addr: Addr, more: bool, writable: bool, next: nat)

  /** A request header: its type and its first sector. */
  datatype Req = Req(write: bool, sector: nat)

  /** A buffer's data: one block, that is two sectors. */
  type Block = (nat, nat)

  /** A request is waiting in the avail ring, in the device's hands, in the used ring, or seen
      by the interrupt handler. */
  datatype Phase = Queued | Taken | Done | Seen

  /** A request, known by its first descriptor: the other two, its buffer, block and direction,
      and what is to be moved: the buffer's data or the block's contents when it was issued. */
  datatype Chain = Chain(d1: nat, d2: nat, b: nat, block: nat, write: bool, sent: Block, phase: Phase)

  /** taken is the number of avail entries that the device has read and seen that of used
      entries that the driver has read; the 16-bit indices are their remainders.  onDisk holds
      the buffers with b->disk set, data the buffers' data and disk the sectors.  own, chains,
      queue and doneq describe the requests in progress.  The driver does not have them: where a
      step below tests them, TakeIsRight, DeviceReadsRequest and IntrIsRight show that the test
      adds nothing to what the code tests. */
  datatype State = State(free: seq<bool>, desc: seq<Desc>, ops: seq<Req>, info: seq<Option<nat>>, status: seq<nat>,
                         avail: seq<nat>, aidx: nat, used: seq<nat>, uidx: nat, taken: nat, seen: nat,
                         onDisk: set<nat>, data: map<nat, Block>, disk: map<nat, nat>,
                         own: seq<Option<nat>>, chains: map<nat, Chain>, queue: seq<nat>, doneq: seq<nat>)

  function Wrap(n: nat): nat {
    n % 65536
  }

  // ---------------------------------------------------------------- invariant

  predicate Shape(s: State) {
    && |s.free| == NUM && |s.desc| == NUM && |s.info| == NUM && |s.status| == NUM && |s.avail| == NUM && |s.used| == NUM
    && |s.own| == NUM && |s.ops| == NUM
  }

  predicate InChain(chains: map<nat, Chain>, h: nat, d: nat) {
    h in chains && (d == h || d == chains[h].d1 || d == chains[h].d2)
  }

  /** A descriptor is free or belongs to one chain. */
  predicate DescOk(free: seq<bool>, own: seq<Option<nat>>, chains: map<nat, Chain>, d: nat) {
    d < |free| && d < |own| ==>
      && (free[d] <==> own[d] == None) && (own[d].Some? ==> InChain(chains, own[d].value, d))
  }

  /** A chain has three descriptors of its own, linked in order and set up for its request. */
  predicate ChainOk(desc: seq<Desc>, ops: seq<Req>, own: seq<Option<nat>>, chains: map<nat, Chain>, h: nat) {
    h in chains ==>
      var c := chains[h];
      && h < |desc| && c.d1 < |desc| && c.d2 < |desc| && |own| == |desc| && |ops| == |desc|
      && h != c.d1 && h != c.d2 && c.d1 != c.d2 && own[h] == Some(h) && own[c.d1] == Some(h) && own[c.d2] == Some(h)
      && desc[h] == Desc(Op(h), true, false, c.d1) && desc[c.d1] == Desc(Data(c.b), true, !c.write, c.d2)
      && desc[c.d2] == Desc(Status(h), false, true, 0) && ops[h] == Req(c.write, 2 * c.block)
  }

  function Data0(data: map<nat, Block>, b: nat): Block {
    if b in data then data[b] else (0, 0)
  }

  function Sector(disk: map<nat, nat>, i: nat): nat {
    if i in disk then disk[i] else 0
  }

  function Content(disk: map<nat, nat>, block: nat): Block {
    (Sector(disk, 2 * block), Sector(disk, 2 * block + 1))
  }

  /** The side that is read holds what it held at the start, and after the transfer both do. */
  predicate DataOk(data: map<nat, Block>, disk: map<nat, nat>, chains: map<nat, Chain>, h: nat) {
    h in chains ==>
      var c := chains[h];
      && (c.write || c.phase == Done || c.phase == Seen ==> Data0(data, c.b) == c.sent)
      && (!c.write || c.phase == Done || c.phase == Seen ==> Content(disk, c.block) == c.sent)
  }

  /** What the request's phase says about its buffer and its status. */
  predicate PhaseOk(info: seq<Option<nat>>, status: seq<nat>, onDisk: set<nat>, chains: map<nat, Chain>,
      queue: seq<nat>, doneq: seq<nat>, h: nat) {
    h in chains ==>
      var c := chains[h];
      && h < |info| && h < |status| && info[h] == Some(c.b) && (c.b in onDisk <==> c.phase != Seen)
      && (c.phase == Done || c.phase == Seen ==> status[h] == 0)
      && (c.phase == Queued <==> h in queue) && (c.phase == Done <==> h in doneq)
  }

  predicate BufferOk(chains: map<nat, Chain>, g: nat, h: nat) {
    g in chains && h in chains && g != h ==> chains[g].b != chains[h].b && chains[g].block != chains[h].block
  }

  /** The entries of a ring from position first on are those of q, each once. */
  ghost predicate RingOk(ring: seq<nat>, first: nat, idx: nat, q: seq<nat>, chains: map<nat, Chain>) {
    && idx == Wrap(first + |q|)
    && (forall k: nat :: SlotAt(ring, first, q, k)) && (forall j: nat, k: nat :: Differ(q, j, k))
    && (forall k: nat :: k < |q| ==> q[k] in chains)
  }

  predicate SlotAt(ring: seq<nat>, first: nat, q: seq<nat>, k: nat) {
    k < |q| && |ring| == NUM ==> ring[(first + k) % 8] == q[k]
  }

  ghost predicate DescsOk(free: seq<bool>, desc: seq<Desc>, ops: seq<Req>, own: seq<Option<nat>>, chains: map<nat,
      Chain>) {
    (forall d: nat :: DescOk(free, own, chains, d)) && (forall h: nat :: ChainOk(desc, ops, own, chains, h))
  }

  ghost predicate PhasesOk(info: seq<Option<nat>>, status: seq<nat>, onDisk: set<nat>, chains: map<nat, Chain>,
      queue: seq<nat>, doneq: seq<nat>) {
    && (forall h: nat :: PhaseOk(info, status, onDisk, chains, queue, doneq, h))
    && (forall g: nat, h: nat :: BufferOk(chains, g, h))
  }

  ghost predicate DatasOk(data: map<nat, Block>, disk: map<nat, nat>, chains: map<nat, Chain>) {
    forall h: nat :: DataOk(data, disk, chains, h)
  }

  ghost predicate Inv(s: State) {
    && Shape(s) && DescsOk(s.free, s.desc, s.ops, s.own, s.chains) && DatasOk(s.data, s.disk, s.chains)
    && PhasesOk(s.info, s.status, s.onDisk, s.chains, s.queue, s.doneq)
    && RingOk(s.avail, s.taken, s.aidx, s.queue, s.chains) && RingOk(s.used, s.seen, s.uidx, s.doneq, s.chains)
  }

  function Blank(): Desc {
    Desc(Nowhere, false, false, 0)
  }

  ghost function Empty(): (s: State)
    ensures Inv(s)
  {
    State(seq(NUM, _ => true), seq(NUM, _ => Blank()), seq(NUM, _ => Req(false, 0)), seq(NUM, _ => None),
          seq(NUM, _ => 0), seq(NUM, _ => 0), 0, seq(NUM, _ => 0), 0, 0, 0, {}, map[], map[], seq(NUM, _ => None),
          map[], [], [])
  }

  type Consistent = s: State | Inv(s) ghost witness Empty()

  // ---------------------------------------------------------------- rings

  ghost function Elements(q: seq<nat>): set<nat> {
    set k | 0 <= k < |q| :: q[k]
  }

  lemma {:induction false} DistinctSize(q: seq<nat>)
    requires forall j: nat, k: nat :: Differ(q, j, k)
    ensures |Elements(q)| == |q|
  {
    if q != [] {
      var init, last := q[..|q| - 1], q[|q| - 1];
      forall j: nat, k: nat ensures Differ(init, j, k) { assert Differ(q, j, k); }
      DistinctSize(init);
      assert Elements(q) == Elements(init) + {last};
      forall k | 0 <= k < |init| ensures init[k] != last { assert Differ(q, k, |q| - 1); }
    }
  }

  /** Fewer than NUM entries are in use, since they are descriptors and h is not among them. */
  lemma RingHasRoom(q: seq<nat>, h: nat)
    requires (forall j: nat, k: nat :: Differ(q, j, k)) && (forall k: nat :: k < |q| ==> q[k] < NUM) && h < NUM
    requires h !in q
    ensures |q| < NUM
  {
    DistinctSize(q);
    var all: set<nat> := {0, 1, 2, 3, 4, 5, 6, 7};
    assert Elements(q) <= all - {h};
    SubsetSize(Elements(q), all - {h});
  }


  lemma OtherSlot(first: nat, n: nat, k: nat)
    requires k < n < 8
    ensures (first + k) % 8 != (first + n) % 8 && Wrap(first + n) % 8 == (first + n) % 8
  {
    assert (first + n) % 65536 % 8 == (first + n) % 8;
  }

  /** An entry is put behind the others; no entry in use is overwritten. */
  lemma RingPush(ring: seq<nat>, first: nat, idx: nat, q: seq<nat>, chains: map<nat, Chain>, h: nat)
    requires RingOk(ring, first, idx, q, chains) && |ring| == NUM && h in chains && h !in q && |q| < NUM
    ensures RingOk(ring[idx % 8 := h], first, Wrap(idx + 1), q + [h], chains)
  {
    var r, n := ring[idx % 8 := h], q + [h];
    OtherSlot0(first, |q|);
    forall k: nat ensures SlotAt(r, first, n, k) {
      assert SlotAt(ring, first, q, k);
      if k < |q| { OtherSlot(first, |q|, k); }
    }
    forall j: nat, k: nat ensures Differ(n, j, k) { assert Differ(q, j, k); }
  }

  lemma OtherSlot0(first: nat, n: nat)
    ensures Wrap(first + n) % 8 == (first + n) % 8 && Wrap(Wrap(first + n) + 1) == Wrap(first + n + 1)
  {
    assert (first + n) % 65536 % 8 == (first + n) % 8;
  }

  /** The first entry is taken out. */
  lemma RingPop(ring: seq<nat>, first: nat, idx: nat, q: seq<nat>, chains: map<nat, Chain>)
    requires RingOk(ring, first, idx, q, chains) && |ring| == NUM && q != []
    ensures ring[first % 8] == q[0] && q[0] !in q[1..] && RingOk(ring, first + 1, idx, q[1..], chains)
  {
    assert SlotAt(ring, first, q, 0);
    var n, f := q[1..], first + 1;
    forall k: nat ensures SlotAt(ring, f, n, k) { assert SlotAt(ring, first, q, k + 1); }
    forall j: nat, k: nat ensures Differ(n, j, k) { assert Differ(q, j + 1, k + 1); }
    forall k | 0 <= k < |n| ensures n[k] != q[0] { assert Differ(q, 0, k + 1); }
  }

  /** The test for an empty ring on 16-bit indices is right. */
  lemma RingEmpty(ring: seq<nat>, first: nat, idx: nat, q: seq<nat>, chains: map<nat, Chain>)
    requires RingOk(ring, first, idx, q, chains) && |q| <= NUM
    ensures Wrap(first) != idx <==> q != []
  {
  }

  lemma RingKept(ring: seq<nat>, first: nat, idx: nat, q: seq<nat>, chains: map<nat, Chain>, others: map<nat, Chain>)
    requires RingOk(ring, first, idx, q, chains) && forall k: nat :: k < |q| ==> q[k] in others
    ensures RingOk(ring, first, idx, q, others)
  {
  }

  // ---------------------------------------------------------------- descriptors

  ghost function FreeSet(free: seq<bool>): set<nat> {
    set d: nat | d < |free| && free[d]
  }

  lemma FreeTake(free: seq<bool>, d: nat)
    requires d < |free| && free[d]
    ensures |FreeSet(free[d := false])| + 1 == |FreeSet(free)|
  {
    assert FreeSet(free) == FreeSet(free[d := false]) + {d};
  }

  /** alloc_desc: the first free descriptor. */
  method AllocDesc(free: seq<bool>) returns (r: Option<nat>, after: seq<bool>)
    requires |free| == NUM
    ensures r == None ==> after == free && forall d :: 0 <= d < NUM ==> !free[d]
    ensures r.Some? ==>
      r.value < NUM && free[r.value] && after == free[r.value := false] && forall d :: 0 <= d < r.value ==> !free[d]
  {
    var i := 0;
    while i < NUM
      invariant 0 <= i <= NUM && forall d :: 0 <= d < i ==> !free[d]
    {
      if free[i] {
        return Some(i), free[i := false];
      }
      i := i + 1;
    }
    r, after := None, free;
  }

  /** alloc3_desc's way back: the descriptors allocated so far are free again. */
  method Rollback(was: seq<bool>, idx: seq<nat>, free: seq<bool>) returns (after: seq<bool>)
    requires |was| == NUM && |free| == NUM && forall k :: 0 <= k < |idx| ==> idx[k] < NUM && was[idx[k]]
    requires forall d: nat :: d < NUM && d !in idx ==> free[d] == was[d]
    ensures after == was
  {
    after := free;
    var j := 0;
    while j < |idx|
      invariant 0 <= j <= |idx| && |after| == NUM
      invariant forall d: nat :: d < NUM && d !in idx[j..] ==> after[d] == was[d]
    {
      assert idx[j..] == [idx[j]] + idx[j + 1..];
      after := after[idx[j] := true];
      j := j + 1;
    }
  }

  /** alloc3_desc: three descriptors or, exactly if fewer are free, all is as it was. */
  method Alloc3(free: seq<bool>) returns (idx: seq<nat>, after: seq<bool>)
    requires |free| == NUM
    ensures |idx| == 3 || idx == []
    ensures idx == [] <==> |FreeSet(free)| < 3
    ensures idx == [] ==> after == free
    ensures |idx| == 3 ==> Three(free, idx[0], idx[1], idx[2]) && after == Thrice(free, idx[0], idx[1], idx[2], false)
  {
    idx, after := [], free;
    var i := 0;
    while i < 3
      invariant 0 <= i <= 3 && |idx| == i && |after| == NUM
      invariant forall k :: 0 <= k < i ==> idx[k] < NUM && free[idx[k]] && !after[idx[k]]
      invariant forall j, k :: 0 <= j < k < i ==> idx[j] != idx[k]
      invariant forall d: nat :: d < NUM && d !in idx ==> after[d] == free[d]
      invariant |FreeSet(after)| + i == |FreeSet(free)|
    {
      var r;
      ghost var t := after;
      r, after := AllocDesc(after);
      if r.Some? { FreeTake(t, r.value); }
      if r == None {
        assert FreeSet(t) == {};
        after := Rollback(free, idx, after);
        return [], after;
      }
      idx := idx + [r.value];
      i := i + 1;
    }
    assert idx == [idx[0], idx[1], idx[2]];
    assert after == Thrice(free, idx[0], idx[1], idx[2], false);
  }

  /** Three different free descriptors. */
  predicate Three(free: seq<bool>, a: nat, b: nat, c: nat) {
    a < |free| && b < |free| && c < |free| && a != b && a != c && b != c && free[a] && free[b] && free[c]
  }

  /** The sequence with x at three places. */
  function Thrice<T>(q: seq<T>, a: nat, b: nat, c: nat, x: T): (r: seq<T>)
    requires a < |q| && b < |q| && c < |q|
    ensures |r| == |q| && forall i :: 0 <= i < |q| ==> r[i] == if i == a || i == b || i == c then x else q[i]
  {
    q[a := x][b := x][c := x]
  }

  /** free_chain: exactly the three descriptors of the chain become free; none was free before,
      which free_desc would panic about. */
  method FreeChain(free: seq<bool>, desc: seq<Desc>, h: nat, ghost d1: nat, ghost d2: nat)
    returns (after: seq<bool>, cleared: seq<Desc>)
    requires |free| == NUM && |desc| == NUM && h < NUM && d1 < NUM && d2 < NUM && h != d1 && h != d2 && d1 != d2
    requires !free[h] && !free[d1] && !free[d2] && desc[h].more && desc[h].next == d1 && desc[d1].more
    requires desc[d1].next == d2 && !desc[d2].more
    ensures after == Thrice(free, h, d1, d2, true)
    ensures cleared == Thrice(desc, h, d1, d2, Desc(Nowhere, false, false, 0))
  {
    after, cleared := free, desc;
    var i, more := h, true;
    ghost var n := 0;
    while more
      invariant n <= 3 && (more <==> n < 3) && |after| == NUM && |cleared| == NUM
      invariant n < 3 ==> i == (if n == 0 then h else if n == 1 then d1 else d2) && !after[i]
      invariant after == (if n == 0 then free else if n == 1 then free[h := true] else if n == 2
        then free[h := true][d1 := true]
                          else Thrice(free, h, d1, d2, true))
      invariant cleared == (if n == 0 then desc else if n == 1 then desc[h := Blank()] else if n == 2
        then desc[h := Blank()][d1 := Blank()]
                            else Thrice(desc, h, d1, d2, Blank()))
      decreases 3 - n
    {
      var flag, nxt := cleared[i].more, cleared[i].next;
      after, cleared := after[i := true], cleared[i := Blank()];
      n := n + 1;
      if flag {
        i := nxt;
      } else {
        more := false;
      }
    }
  }

  // ---------------------------------------------------------------- steps

  /** virtio_disk_rw up to the notification of the device. */
  function Submit(s: State, h: nat, d1: nat, d2: nat, b: nat, block: nat, write: bool): State
    requires Shape(s) && h < NUM && d1 < NUM && d2 < NUM
  {
    var sent := if write then Data0(s.data, b) else Content(s.disk, block);
    s.(free := Thrice(s.free, h, d1, d2, false),
       desc := s.desc[h := Desc(Op(h), true, false, d1)][d1 := Desc(Data(b), true, !write, d2)]
                     [d2 := Desc(Status(h), false, true, 0)],
       ops := s.ops[h := Req(write, block * 2)], info := s.info[h := Some(b)], status := s.status[h := 255],
       onDisk := s.onDisk + {b},
       avail := s.avail[s.aidx % 8 := h], aidx := Wrap(s.aidx + 1),
       own := Thrice(s.own, h, d1, d2, Some(h)),
       chains := s.chains[h := Chain(d1, d2, b, block, write, sent, Queued)], queue := s.queue + [h])
  }

  /** The caller holds the buffer's sleep-lock and a block has one buffer, so that no other
      request is for this buffer or this block. */
  predicate CanSubmit(s: State, h: nat, d1: nat, d2: nat, b: nat, block: nat) {
    && Shape(s) && Three(s.free, h, d1, d2)
    && forall g :: g in s.chains ==> s.chains[g].b != b && s.chains[g].block != block
  }

  /** The device reads an avail entry, if there is one. */
  function Take(s: State): State
    requires Shape(s)
  {
    var h := s.avail[s.taken % 8];
    if Wrap(s.taken) != s.aidx && h in s.chains && s.queue != [] then
      s.(taken := s.taken + 1, queue := s.queue[1..], chains := s.chains[h := s.chains[h].(phase := Taken)])
    else s
  }

  /** The device finds a header, a buffer to be written if it is a read, and a status byte. */
  predicate Readable(s: State, h: nat) {
    && Shape(s) && h < NUM && s.desc[h].addr.Op? && s.desc[h].addr.i < NUM && s.desc[h].more && s.desc[h].next < NUM
    && var d := s.desc[s.desc[h].next];
    && d.addr.Data? && d.writable == !s.ops[s.desc[h].addr.i].write && d.more && d.next < NUM
    && s.desc[d.next].addr.Status? && s.desc[d.next].writable && s.desc[d.next].addr.i < NUM
  }

  /** The device carries out a request as its descriptors say, sets the status and adds a used entry. */
  function Complete(s: State, h: nat): State
    requires Shape(s)
  {
    if h in s.chains && s.chains[h].phase == Taken && Readable(s, h) then
      var req, d := s.ops[s.desc[h].addr.i], s.desc[s.desc[h].next];
      var b, i := d.addr.b, s.desc[d.next].addr.i;
      var from := (Sector(s.disk, req.sector), Sector(s.disk, req.sector + 1));
      var to := Data0(s.data, b);
      s.(data := if req.write then s.data else s.data[b := from],
         disk := if req.write then s.disk[req.sector := to.0][req.sector + 1 := to.1] else s.disk,
         status := s.status[i := 0], used := s.used[s.uidx % 8 := h], uidx := Wrap(s.uidx + 1), doneq := s.doneq + [h],
         chains := s.chains[h := s.chains[h].(phase := Done)])
    else s
  }

  /** One turn of virtio_disk_intr's loop. */
  function Intr(s: State): State
    requires Shape(s)
  {
    var id := s.used[s.seen % 8];
    if Wrap(s.seen) != s.uidx && id < NUM && s.info[id].Some? && id in s.chains && s.doneq != [] then
      s.(onDisk := s.onDisk - {s.info[id].value}, seen := s.seen + 1, doneq := s.doneq[1..],
         chains := s.chains[id := s.chains[id].(phase := Seen)])
    else s
  }

  /** virtio_disk_rw after its wait, which ends when b->disk is clear. */
  predicate CanFinish(s: State, h: nat) {
    Shape(s) && h in s.chains && s.chains[h].b !in s.onDisk && h < NUM && s.chains[h].d1 < NUM && s.chains[h].d2 < NUM
  }

  function Finish(s: State, h: nat): State
    requires CanFinish(s, h)
  {
    var c := s.chains[h];
    s.(info := s.info[h := None], free := Thrice(s.free, h, c.d1, c.d2, true),
       desc := Thrice(s.desc, h, c.d1, c.d2, Blank()),
       own := Thrice(s.own, h, c.d1, c.d2, None), chains := s.chains - {h})
  }

  /** A buffer whose lock a process holds and that is not in a request changes. */
  predicate CanFill(s: State, b: nat) {
    forall g :: g in s.chains ==> s.chains[g].b != b
  }

  function Fill(s: State, b: nat, v: Block): State {
    s.(data := s.data[b := v])
  }

  // ---------------------------------------------------------------- every step keeps the invariant

  lemma NotQueued(s: Consistent, h: nat)
    requires h < NUM && s.free[h]
    ensures h !in s.chains && h !in s.queue && h !in s.doneq
  {
    assert DescOk(s.free, s.own, s.chains, h);
    assert ChainOk(s.desc, s.ops, s.own, s.chains, h);
    forall k | 0 <= k < |s.queue| ensures s.queue[k] in s.chains {}
  }

  lemma SubmitDescs(s: Consistent, h: nat, d1: nat, d2: nat, b: nat, block: nat, write: bool)
    requires CanSubmit(s, h, d1, d2, b, block)
    ensures var t := Submit(s, h, d1, d2, b, block, write); DescsOk(t.free, t.desc, t.ops, t.own, t.chains)
  {
    var t := Submit(s, h, d1, d2, b, block, write);
    NotQueued(s, h);
    var free, desc, ops, own, chains := t.free, t.desc, t.ops, t.own, t.chains;
    forall d: nat ensures DescOk(free, own, chains, d) { assert DescOk(s.free, s.own, s.chains, d); }
    forall g: nat ensures ChainOk(desc, ops, own, chains, g) {
      assert ChainOk(s.desc, s.ops, s.own, s.chains, g);
      assert DescOk(s.free, s.own, s.chains, h);
      assert DescOk(s.free, s.own, s.chains, d1);
      assert DescOk(s.free, s.own, s.chains, d2);
    }
  }

  /** A request that is started, is taken or changes phase: what PhaseOk says of the others. */
  lemma SubmitPhases(s: Consistent, h: nat, d1: nat, d2: nat, b: nat, block: nat, write: bool)
    requires CanSubmit(s, h, d1, d2, b, block)
    ensures var t := Submit(s, h, d1, d2, b, block, write);
            PhasesOk(t.info, t.status, t.onDisk, t.chains, t.queue, t.doneq) && DatasOk(t.data, t.disk, t.chains)
  {
    var t := Submit(s, h, d1, d2, b, block, write);
    NotQueued(s, h);
    var info, status, onDisk, chains := t.info, t.status, t.onDisk, t.chains;
    var queue, doneq, data, disk := t.queue, t.doneq, t.data, t.disk;
    forall g: nat ensures PhaseOk(info, status, onDisk, chains, queue, doneq, g) {
      assert PhaseOk(s.info, s.status, s.onDisk, s.chains, s.queue, s.doneq, g);
    }
    forall f: nat, g: nat ensures BufferOk(chains, f, g) { assert BufferOk(s.chains, f, g); }
    forall g: nat ensures DataOk(data, disk, chains, g) { assert DataOk(s.data, s.disk, s.chains, g); }
  }

  lemma SubmitInv(s: Consistent, h: nat, d1: nat, d2: nat, b: nat, block: nat, write: bool)
    requires CanSubmit(s, h, d1, d2, b, block)
    ensures Inv(Submit(s, h, d1, d2, b, block, write))
  {
    var t := Submit(s, h, d1, d2, b, block, write);
    NotQueued(s, h);
    SubmitDescs(s, h, d1, d2, b, block, write);
    SubmitPhases(s, h, d1, d2, b, block, write);
    HeadsSmall(s);
    RingHasRoom(s.queue, h);
    RingKept(s.avail, s.taken, s.aidx, s.queue, s.chains, t.chains);
    RingPush(s.avail, s.taken, s.aidx, s.queue, t.chains, h);
    RingKept(s.used, s.seen, s.uidx, s.doneq, s.chains, t.chains);
  }

  lemma HeadsSmall(s: Consistent)
    ensures forall k: nat :: k < |s.queue| ==> s.queue[k] < NUM
    ensures forall k: nat :: k < |s.doneq| ==> s.doneq[k] < NUM
  {
    forall k: nat | k < |s.queue| ensures s.queue[k] < NUM {
      assert ChainOk(s.desc, s.ops, s.own, s.chains, s.queue[k]);
    }
    forall k: nat | k < |s.doneq| ensures s.doneq[k] < NUM {
      assert ChainOk(s.desc, s.ops, s.own, s.chains, s.doneq[k]);
    }
  }

  /** The device's test for work is right and it gets the oldest request, whose slot nobody has
      overwritten. */
  lemma TakeIsRight(s: Consistent)
    ensures Wrap(s.taken) != s.aidx <==> s.queue != []
    ensures s.queue != [] ==>
      s.avail[s.taken % 8] == s.queue[0] && s.queue[0] in s.chains && s.chains[s.queue[0]].phase == Queued
  {
    HeadsSmall(s);
    AtMostEight(s.queue);
    RingEmpty(s.avail, s.taken, s.aidx, s.queue, s.chains);
    if s.queue != [] {
      RingPop(s.avail, s.taken, s.aidx, s.queue, s.chains);
      assert PhaseOk(s.info, s.status, s.onDisk, s.chains, s.queue, s.doneq, s.queue[0]);
    }
  }

  lemma AtMostEight(q: seq<nat>)
    requires (forall j: nat, k: nat :: Differ(q, j, k)) && (forall k: nat :: k < |q| ==> q[k] < NUM)
    ensures |q| <= NUM
  {
    DistinctSize(q);
    var all: set<nat> := {0, 1, 2, 3, 4, 5, 6, 7};
    assert Elements(q) <= all;
    SubsetSize(Elements(q), all);
  }

  /** A request moves to another phase; its descriptors and its buffer stay. */
  lemma MoveDescs(s: Consistent, h: nat, phase: Phase)
    requires h in s.chains
    ensures DescsOk(s.free, s.desc, s.ops, s.own, s.chains[h := s.chains[h].(phase := phase)])
    ensures var chains := s.chains[h := s.chains[h].(phase := phase)]; forall f: nat, g: nat :: BufferOk(chains, f, g)
  {
    var chains := s.chains[h := s.chains[h].(phase := phase)];
    forall d: nat ensures DescOk(s.free, s.own, chains, d) { assert DescOk(s.free, s.own, s.chains, d); }
    forall g: nat ensures ChainOk(s.desc, s.ops, s.own, chains, g) {
      assert ChainOk(s.desc, s.ops, s.own, s.chains, g);
    }
    forall f: nat, g: nat ensures BufferOk(chains, f, g) { assert BufferOk(s.chains, f, g); }
  }

  lemma TakeInv(s: Consistent)
    ensures Inv(Take(s))
  {
    TakeIsRight(s);
    if s.queue != [] {
      var t, h := Take(s), s.queue[0];
      MoveDescs(s, h, Taken);
      RingPop(s.avail, s.taken, s.aidx, s.queue, s.chains);
      RingKept(s.avail, t.taken, s.aidx, t.queue, s.chains, t.chains);
      RingKept(s.used, s.seen, s.uidx, s.doneq, s.chains, t.chains);
      assert s.queue == [h] + t.queue;
      var chains, queue := t.chains, t.queue;
      forall g: nat ensures PhaseOk(s.info, s.status, s.onDisk, chains, queue, s.doneq, g) {
        assert PhaseOk(s.info, s.status, s.onDisk, s.chains, s.queue, s.doneq, g);
      }
      forall g: nat ensures DataOk(s.data, s.disk, chains, g) { assert DataOk(s.data, s.disk, s.chains, g); }
    }
  }

  /** What the device reads in memory is the request as it was issued. */
  lemma DeviceReadsRequest(s: Consistent, h: nat)
    requires h in s.chains
    ensures Readable(s, h) && s.desc[h].addr.i == h && s.ops[h] == Req(s.chains[h].write, 2 * s.chains[h].block)
    ensures s.desc[h].next == s.chains[h].d1 && s.desc[s.desc[h].next].addr.b == s.chains[h].b
    ensures s.desc[s.desc[s.desc[h].next].next].addr.i == h
  {
    assert ChainOk(s.desc, s.ops, s.own, s.chains, h);
  }

  lemma CompleteData(s: Consistent, h: nat)
    requires h in s.chains && s.chains[h].phase == Taken
    ensures var t := Complete(s, h); DatasOk(t.data, t.disk, t.chains)
  {
    DeviceReadsRequest(s, h);
    var t := Complete(s, h);
    var data, disk, chains := t.data, t.disk, t.chains;
    forall g: nat ensures DataOk(data, disk, chains, g) {
      assert DataOk(s.data, s.disk, s.chains, g);
      assert DataOk(s.data, s.disk, s.chains, h);
      assert BufferOk(s.chains, g, h);
    }
  }

  lemma CompletePhases(s: Consistent, h: nat)
    requires h in s.chains && s.chains[h].phase == Taken
    ensures var t := Complete(s, h); PhasesOk(t.info, t.status, t.onDisk, t.chains, t.queue, t.doneq)
  {
    DeviceReadsRequest(s, h);
    MoveDescs(s, h, Done);
    var t := Complete(s, h);
    var status, chains, doneq := t.status, t.chains, t.doneq;
    forall g: nat ensures PhaseOk(s.info, status, s.onDisk, chains, s.queue, doneq, g) {
      assert PhaseOk(s.info, s.status, s.onDisk, s.chains, s.queue, s.doneq, g);
      assert PhaseOk(s.info, s.status, s.onDisk, s.chains, s.queue, s.doneq, h);
    }
  }

  lemma CompleteInv(s: Consistent, h: nat)
    ensures Inv(Complete(s, h))
  {
    if h in s.chains && s.chains[h].phase == Taken {
      DeviceReadsRequest(s, h);
      CompleteData(s, h);
      CompletePhases(s, h);
      MoveDescs(s, h, Done);
      var t := Complete(s, h);
      assert PhaseOk(s.info, s.status, s.onDisk, s.chains, s.queue, s.doneq, h);
      HeadsSmall(s);
      RingHasRoom(s.doneq, h);
      RingKept(s.avail, s.taken, s.aidx, s.queue, s.chains, t.chains);
      RingKept(s.used, s.seen, s.uidx, s.doneq, s.chains, t.chains);
      RingPush(s.used, s.seen, s.uidx, s.doneq, t.chains, h);
    }
  }

  /** The interrupt handler's test for entries is right; the entry is the oldest completed
      request, its status is 0, so that there is no panic, and info leads to its buffer. */
  lemma IntrIsRight(s: Consistent)
    ensures Wrap(s.seen) != s.uidx <==> s.doneq != []
    ensures s.doneq != [] ==> var id := s.used[s.seen % 8];
            && id == s.doneq[0] && id < NUM && id in s.chains && s.chains[id].phase == Done
            && s.status[id] == 0 && s.info[id] == Some(s.chains[id].b)
  {
    HeadsSmall(s);
    AtMostEight(s.doneq);
    RingEmpty(s.used, s.seen, s.uidx, s.doneq, s.chains);
    if s.doneq != [] {
      RingPop(s.used, s.seen, s.uidx, s.doneq, s.chains);
      assert PhaseOk(s.info, s.status, s.onDisk, s.chains, s.queue, s.doneq, s.doneq[0]);
    }
  }

  lemma IntrInv(s: Consistent)
    ensures Inv(Intr(s))
  {
    IntrIsRight(s);
    if s.doneq != [] {
      var t, h := Intr(s), s.doneq[0];
      MoveDescs(s, h, Seen);
      RingPop(s.used, s.seen, s.uidx, s.doneq, s.chains);
      RingKept(s.used, t.seen, s.uidx, t.doneq, s.chains, t.chains);
      RingKept(s.avail, s.taken, s.aidx, s.queue, s.chains, t.chains);
      assert s.doneq == [h] + t.doneq;
      var chains, doneq, onDisk := t.chains, t.doneq, t.onDisk;
      forall g: nat ensures PhaseOk(s.info, s.status, onDisk, chains, s.queue, doneq, g) {
        assert PhaseOk(s.info, s.status, s.onDisk, s.chains, s.queue, s.doneq, g);
        assert BufferOk(s.chains, g, h);
      }
      forall g: nat ensures DataOk(s.data, s.disk, chains, g) { assert DataOk(s.data, s.disk, s.chains, g); }
    }
  }

  /** A process whose wait is over has a finished request: the buffer and the block both hold
      what the buffer (for a write) or the block (for a read) held when it was issued.  Its three
      descriptors are linked and none is free, so that free_chain frees them without panic. */
  lemma FinishIsRight(s: Consistent, h: nat)
    requires h in s.chains && s.chains[h].b !in s.onDisk
    ensures CanFinish(s, h) && s.chains[h].phase == Seen && s.status[h] == 0
    ensures Data0(s.data, s.chains[h].b) == s.chains[h].sent && Content(s.disk, s.chains[h].block) == s.chains[h].sent
    ensures var c := s.chains[h];
            && h != c.d1 && h != c.d2 && c.d1 != c.d2 && !s.free[h] && !s.free[c.d1] && !s.free[c.d2]
            && s.desc[h].more && s.desc[h].next == c.d1 && s.desc[c.d1].more && s.desc[c.d1].next == c.d2
            && !s.desc[c.d2].more
  {
    var c := s.chains[h];
    assert ChainOk(s.desc, s.ops, s.own, s.chains, h);
    assert DescOk(s.free, s.own, s.chains, h) && DescOk(s.free, s.own, s.chains, c.d1);
    assert DescOk(s.free, s.own, s.chains, c.d2);
    assert PhaseOk(s.info, s.status, s.onDisk, s.chains, s.queue, s.doneq, h);
    assert DataOk(s.data, s.disk, s.chains, h);
  }

  lemma FinishDescs(s: Consistent, h: nat)
    requires CanFinish(s, h)
    ensures var t := Finish(s, h); DescsOk(t.free, t.desc, t.ops, t.own, t.chains)
  {
    var t, c := Finish(s, h), s.chains[h];
    assert ChainOk(s.desc, s.ops, s.own, s.chains, h);
    var free, desc, own, chains := t.free, t.desc, t.own, t.chains;
    forall d: nat ensures DescOk(free, own, chains, d) { assert DescOk(s.free, s.own, s.chains, d); }
    forall g: nat ensures ChainOk(desc, s.ops, own, chains, g) { assert ChainOk(s.desc, s.ops, s.own, s.chains, g); }
  }

  lemma FinishInv(s: Consistent, h: nat)
    requires CanFinish(s, h)
    ensures Inv(Finish(s, h))
  {
    FinishDescs(s, h);
    var t := Finish(s, h);
    assert PhaseOk(s.info, s.status, s.onDisk, s.chains, s.queue, s.doneq, h);
    RingKept(s.used, s.seen, s.uidx, s.doneq, s.chains, t.chains);
    RingKept(s.avail, s.taken, s.aidx, s.queue, s.chains, t.chains);
    var chains, info := t.chains, t.info;
    forall g: nat ensures PhaseOk(info, s.status, s.onDisk, chains, s.queue, s.doneq, g) {
      assert PhaseOk(s.info, s.status, s.onDisk, s.chains, s.queue, s.doneq, g);
    }
    forall f: nat, g: nat ensures BufferOk(chains, f, g) { assert BufferOk(s.chains, f, g); }
    forall g: nat ensures DataOk(s.data, s.disk, chains, g) { assert DataOk(s.data, s.disk, s.chains, g); }
  }

  lemma FillInv(s: Consistent, b: nat, v: Block)
    requires CanFill(s, b)
    ensures Inv(Fill(s, b, v))
  {
    var data := s.data[b := v];
    forall g: nat ensures DataOk(data, s.disk, s.chains, g) { assert DataOk(s.data, s.disk, s.chains, g); }
  }

  // ---------------------------------------------------------------- runs

  datatype Event =
    | Submits(h: nat, d1: nat, d2: nat, b: nat, block: nat, write: bool)
    | Takes
    | Completes(h: nat)
    | Interrupts
    | Finishes(h: nat)
    | Fills(b: nat, v: Block)

  predicate Enabled(s: State, e: Event) {
    Shape(s) && match e
      case Submits(h, d1, d2, b, block, _) => CanSubmit(s, h, d1, d2, b, block)
      case Finishes(h) => CanFinish(s, h)
      case Fills(b, _) => CanFill(s, b)
      case _ => true
  }

  function Next(s: State, e: Event): State
    requires Enabled(s, e)
  {
    match e
    case Submits(h, d1, d2, b, block, write) => Submit(s, h, d1, d2, b, block, write)
    case Takes => Take(s)
    case Completes(h) => Complete(s, h)
    case Interrupts => Intr(s)
    case Finishes(h) => Finish(s, h)
    case Fills(b, v) => Fill(s, b, v)
  }

  lemma NextInv(s: Consistent, e: Event)
    requires Enabled(s, e)
    ensures Inv(Next(s, e))
  {
    match e
    case Submits(h, d1, d2, b, block, write) => SubmitInv(s, h, d1, d2, b, block, write);
    case Takes => TakeInv(s);
    case Completes(h) => CompleteInv(s, h);
    case Interrupts => IntrInv(s);
    case Finishes(h) => FinishInv(s, h);
    case Fills(b, v) => FillInv(s, b, v);
  }

  /** t is reached from s by these events, in order. */
  ghost predicate Reaches(s: State, es: seq<Event>, t: State)
    decreases |es|
  {
    if es == [] then s == t else Enabled(s, es[0]) && Reaches(Next(s, es[0]), es[1..], t)
  }

  lemma {:induction false} RunInv(s: Consistent, es: seq<Event>, t: State)
    requires Reaches(s, es, t)
    ensures Inv(t)
    decreases |es|
  {
    if es != [] {
      NextInv(s, es[0]);
      RunInv(Next(s, es[0]), es[1..], t);
    }
  }

  predicate SameRequest(c: Chain, d: Chain) {
    c.b == d.b && c.block == d.block && c.write == d.write && c.sent == d.sent
  }

  lemma NextKeeps(s: Consistent, e: Event, h: nat)
    requires Enabled(s, e) && h in s.chains && e != Finishes(h)
    ensures h in Next(s, e).chains && SameRequest(s.chains[h], Next(s, e).chains[h])
  {
    if e.Submits? {
      NotQueued(s, e.h);
    }
  }

  lemma {:induction false} RunKeeps(s: Consistent, es: seq<Event>, t: State, h: nat)
    requires Reaches(s, es, t) && h in s.chains && Finishes(h) !in es
    ensures h in t.chains && SameRequest(s.chains[h], t.chains[h])
    decreases |es|
  {
    if es != [] {
      NextInv(s, es[0]);
      NextKeeps(s, es[0], h);
      RunKeeps(Next(s, es[0]), es[1..], t, h);
    }
  }

  /** A request is one atomic transfer, whatever other requests run beside it and in whatever
      order the device serves them: when its process finds b->disk clear, the buffer and the
      block both hold what the buffer (for a write) or the block (for a read) held when the
      request was issued. */
  lemma RequestIsAtomic(s: Consistent, h: nat, d1: nat, d2: nat, b: nat, block: nat, write: bool, es: seq<Event>,
      t: State)
    requires CanSubmit(s, h, d1, d2, b, block)
    requires Reaches(Submit(s, h, d1, d2, b, block, write), es, t) && Finishes(h) !in es && b !in t.onDisk
    ensures Data0(t.data, b) == Content(t.disk, block) == if write then Data0(s.data, b) else Content(s.disk, block)
  {
    SubmitInv(s, h, d1, d2, b, block, write);
    RunInv(Submit(s, h, d1, d2, b, block, write), es, t);
    RunKeeps(Submit(s, h, d1, d2, b, block, write), es, t, h);
    FinishIsRight(t, h);
  }

  /** Requests do complete: with nothing else waiting, the device takes the request, carries it
      out and interrupts, and then the process finds b->disk clear. */
  lemma RequestCompletes(s: Consistent, h: nat, d1: nat, d2: nat, b: nat, block: nat, write: bool)
    requires CanSubmit(s, h, d1, d2, b, block) && s.queue == [] && s.doneq == []
    ensures exists t: State ::
      Reaches(Submit(s, h, d1, d2, b, block, write), [Takes, Completes(h), Interrupts], t) && b !in t.onDisk
  {
    var s1 := Submit(s, h, d1, d2, b, block, write);
    SubmitInv(s, h, d1, d2, b, block, write);
    TakesIt(s1, h);
    var s2 := Take(s1);
    TakeInv(s1);
    CompletesIt(s2, h);
    var s3 := Complete(s2, h);
    CompleteInv(s2, h);
    HandsBack(s3, h);
    var t := Intr(s3);
    ReachesFrom(s3, Interrupts, t, [], t);
    ReachesFrom(s2, Completes(h), s3, [Interrupts], t);
    ReachesFrom(s1, Takes, s2, [Completes(h), Interrupts], t);
  }

  lemma ReachesFrom(s: State, e: Event, u: State, es: seq<Event>, t: State)
    requires Enabled(s, e) && u == Next(s, e) && Reaches(u, es, t)
    ensures Reaches(s, [e] + es, t)
  {
    assert ([e] + es)[1..] == es;
  }

  lemma TakesIt(s: Consistent, h: nat)
    requires s.queue == [h] && s.doneq == []
    ensures h in Take(s).chains && Take(s).chains[h] == s.chains[h].(phase := Taken) && Take(s).doneq == []
    ensures h in s.chains
  {
    TakeIsRight(s);
  }

  lemma CompletesIt(s: Consistent, h: nat)
    requires h in s.chains && s.chains[h].phase == Taken && s.doneq == []
    ensures h in Complete(s, h).chains && Complete(s, h).chains[h] == s.chains[h].(phase := Done)
    ensures Complete(s, h).doneq == [h]
  {
    DeviceReadsRequest(s, h);
  }

  lemma HandsBack(s: Consistent, h: nat)
    requires s.doneq == [h] && h in s.chains
    ensures s.chains[h].b !in Intr(s).onDisk
  {
    IntrIsRight(s);
  }

  /** With no request in progress all descriptors are free: none leaks. */
  lemma NoneLeaks(s: Consistent)
    ensures s.chains == map[] <==> forall d: nat :: d < NUM ==> s.free[d]
  {
    if s.chains == map[] {
      forall d: nat | d < NUM ensures s.free[d] { assert DescOk(s.free, s.own, s.chains, d); }
    } else {
      var h :| h in s.chains;
      assert ChainOk(s.desc, s.ops, s.own, s.chains, h);
      assert DescOk(s.free, s.own, s.chains, h);
    }
  }

  // ---------------------------------------------------------------- the driver

  class Disk {
    var s: Consistent

    constructor ()
      ensures s.chains == map[] && s.onDisk == {} && forall d: nat :: d < NUM ==> s.free[d]
    {
      s := State([true, true, true, true, true, true, true, true], seq(NUM, _ => Blank()), seq(NUM, _ => Req(false, 0)),
                 seq(NUM, _ => None), seq(NUM, _ => 0), seq(NUM, _ => 0), 0, seq(NUM, _ => 0), 0, 0, 0, {}, map[],
                 map[], seq(NUM, _ => None), map[], [], []);
    }

    /** The first half of virtio_disk_rw; it fails, and the process sleeps, exactly when there
        are not three free descriptors. */
    method Start(b: nat, block: nat, write: bool) returns (r: Option<nat>)
      requires forall g :: g in s.chains ==> s.chains[g].b != b && s.chains[g].block != block
      modifies this
      ensures r == None ==> s == old(s)
      ensures r == None <==> |FreeSet(old(s.free))| < 3
      ensures r.Some? ==> exists d1: nat, d2: nat ::
        CanSubmit(old(s), r.value, d1, d2, b, block) && s == Submit(old(s), r.value, d1, d2, b, block, write)
    {
      var idx, after := Alloc3(s.free);
      if idx == [] {
        return None;
      }
      ghost var was := s;
      SubmitInv(s, idx[0], idx[1], idx[2], b, block, write);
      s := Submit(s, idx[0], idx[1], idx[2], b, block, write).(free := after);
      assert CanSubmit(was, idx[0], idx[1], idx[2], b, block);
      assert s == Submit(was, idx[0], idx[1], idx[2], b, block, write);
      r := Some(idx[0]);
    }

    /** virtio_disk_intr: every completed request has been seen and its buffer released. */
    method Interrupt()
      modifies this
      ensures s.doneq == [] && s.free == old(s.free) && s.data == old(s.data) && s.disk == old(s.disk)
      ensures s.chains.Keys == old(s.chains).Keys
      ensures forall h :: h in s.chains ==> s.chains[h] == After(old(s.chains[h]))
    {
      while Wrap(s.seen) != s.uidx
        invariant s.free == old(s.free) && s.data == old(s.data) && s.disk == old(s.disk)
        invariant s.chains.Keys == old(s.chains).Keys
        invariant forall h :: h in s.chains ==>
          s.chains[h] == old(s.chains[h]) || s.chains[h] == After(old(s.chains[h]))
        decreases |s.doneq|
      {
        IntrIsRight(s);
        IntrInv(s);
        s := Intr(s);
      }
      IntrIsRight(s);
      forall h | h in s.chains ensures s.chains[h] == After(old(s.chains[h])) {
        assert PhaseOk(s.info, s.status, s.onDisk, s.chains, s.queue, s.doneq, h);
      }
    }

    /** The second half of virtio_disk_rw. */
    method End(h: nat)
      requires h in s.chains && s.chains[h].b !in s.onDisk
      modifies this
      ensures CanFinish(old(s), h) && s == Finish(old(s), h)
    {
      FinishIsRight(s, h);
      FinishInv(s, h);
      var after, cleared := FreeChain(s.free, s.desc, h, s.chains[h].d1, s.chains[h].d2);
      var c := s.chains[h];
      s := s.(info := s.info[h := None], free := after, desc := cleared, own := Thrice(s.own, h, c.d1, c.d2, None),
              chains := s.chains - {h});
    }
  }

  function After(c: Chain): Chain {
    if c.phase == Done then c.(phase := Seen) else c
  }
}
