/** kernel/bio.c: the NBUF buffers and the circular doubly linked list through them, most
  recently used first.  Buffers are numbered 0..NBUF-1 and NBUF is the list head. */
module BufferCache {
  import opened Basics

  const HEAD: nat := NBUF

  datatype Buf = Buf(dev: nat, blockno: nat, valid: bool, refcnt: int)

  // ---------------------------------------------------------------- the list

  ghost predicate Ring(next: seq<nat>, prev: seq<nat>, r: seq<nat>) {
    && |next| == NBUF + 1 && |prev| == NBUF + 1 && 0 < |r| && r[0] == HEAD
    && (forall i :: 0 <= i < |r| ==> r[i] <= NBUF)
    && (forall i, j :: 0 <= i < j < |r| ==> r[i] != r[j])
    && (forall i :: 0 <= i < |r| - 1 ==> next[r[i]] == r[i + 1])
    && (forall i :: 0 < i < |r| ==> prev[r[i]] == r[i - 1])
    && next[r[|r| - 1]] == HEAD && prev[HEAD] == r[|r| - 1]
  }

  /** The first two assignments of brelse. */
  function Unlink(next: seq<nat>, prev: seq<nat>, b: nat): (seq<nat>, seq<nat>)
    requires |next| == NBUF + 1 && |prev| == NBUF + 1 && b <= NBUF && next[b] <= NBUF && prev[b] <= NBUF
  {
    (next[prev[b] := next[b]], prev[next[b] := prev[b]])
  }

  /** The other four, which binit shares. */
  function InsertFirst(next: seq<nat>, prev: seq<nat>, b: nat): (seq<nat>, seq<nat>)
    requires |next| == NBUF + 1 && |prev| == NBUF + 1 && b <= NBUF && next[HEAD] <= NBUF
  {
    (next[b := next[HEAD]][HEAD := b], prev[b := HEAD][next[HEAD] := b])
  }

  ghost function Skip(r: seq<nat>, k: nat): seq<nat>
    requires k < |r|
  {
    r[..k] + r[k + 1..]
  }

  lemma SkipAt(r: seq<nat>, k: nat)
    requires k < |r|
    ensures |Skip(r, k)| == |r| - 1
    ensures forall i :: 0 <= i < |r| - 1 ==> Skip(r, k)[i] == if i < k then r[i] else r[i + 1]
  {
  }

  lemma UnlinkNext(next: seq<nat>, prev: seq<nat>, r: seq<nat>, k: nat, i: nat)
    requires Ring(next, prev, r) && 0 < k < |r| && i < |r| - 1
    ensures var q := Skip(r, k);
      next[r[k - 1] := next[r[k]]][q[i]] == if i == |q| - 1 then HEAD else q[i + 1]
  {
    SkipAt(r, k);
    var j := if i < k then i else i + 1;
    assert j != k - 1 ==> r[j] != r[k - 1];
  }

  lemma UnlinkPrev(next: seq<nat>, prev: seq<nat>, r: seq<nat>, k: nat, i: nat)
    requires Ring(next, prev, r) && 0 < k < |r| && 0 < i < |r| - 1
    ensures next[r[k]] <= NBUF && prev[next[r[k]] := r[k - 1]][Skip(r, k)[i]] == Skip(r, k)[i - 1]
  {
    SkipAt(r, k);
    var j := if i < k then i else i + 1;
    assert r[j] != HEAD && (j != k + 1 && k + 1 < |r| ==> r[j] != r[k + 1]);
  }

  lemma UnlinkRing(next: seq<nat>, prev: seq<nat>, r: seq<nat>, k: nat)
    requires Ring(next, prev, r) && 0 < k < |r|
    ensures next[r[k]] <= NBUF && prev[r[k]] <= NBUF
    ensures Ring(Unlink(next, prev, r[k]).0, Unlink(next, prev, r[k]).1, Skip(r, k))
  {
    var q := Skip(r, k);
    assert prev[r[k]] == r[k - 1];
    assert next[r[k]] == if k == |r| - 1 then HEAD else r[k + 1];
    SkipAt(r, k);
    var n, p := next[r[k - 1] := next[r[k]]], prev[next[r[k]] := r[k - 1]];
    forall i | 0 <= i < |q| ensures n[q[i]] == if i == |q| - 1 then HEAD else q[i + 1] {
      UnlinkNext(next, prev, r, k, i);
    }
    forall i | 0 < i < |q| ensures p[q[i]] == q[i - 1] {
      UnlinkPrev(next, prev, r, k, i);
    }
  }

  lemma InsertRing(next: seq<nat>, prev: seq<nat>, r: seq<nat>, b: nat)
    requires Ring(next, prev, r) && b < NBUF && b !in r
    ensures next[HEAD] <= NBUF
    ensures Ring(InsertFirst(next, prev, b).0, InsertFirst(next, prev, b).1, [HEAD, b] + r[1..])
  {
    var q := [HEAD, b] + r[1..];
    assert next[HEAD] == if |r| == 1 then HEAD else r[1];
    assert forall i :: 2 <= i < |q| ==> q[i] == r[i - 1];
  }

  /** The list with its k-th element moved to the front. */
  ghost function Front(r: seq<nat>, k: nat): seq<nat>
    requires 0 < k < |r|
  {
    [HEAD, r[k]] + Skip(r, k)[1..]
  }

  lemma FrontAt(r: seq<nat>, k: nat)
    requires 0 < k < |r|
    ensures |Front(r, k)| == |r| && Front(r, k)[0] == HEAD && Front(r, k)[1] == r[k]
    ensures forall i :: 2 <= i < |r| ==> Front(r, k)[i] == if i <= k then r[i - 1] else r[i]
  {
    SkipAt(r, k);
  }

  lemma FrontRing(next: seq<nat>, prev: seq<nat>, r: seq<nat>, k: nat)
    requires Ring(next, prev, r) && 0 < k < |r|
    ensures next[r[k]] <= NBUF && prev[r[k]] <= NBUF
    ensures Unlink(next, prev, r[k]).0[HEAD] <= NBUF
    ensures var u := Unlink(next, prev, r[k]);
      Ring(InsertFirst(u.0, u.1, r[k]).0, InsertFirst(u.0, u.1, r[k]).1, Front(r, k))
  {
    UnlinkRing(next, prev, r, k);
    var u := Unlink(next, prev, r[k]);
    InsertRing(u.0, u.1, Skip(r, k), r[k]);
  }

  // ---------------------------------------------------------------- the cache

  /** At most one buffer holds a block.  Device 0 marks buffers never used so far. */
  ghost predicate Unique(bufs: seq<Buf>) {
    forall i, j :: 0 <= i < j < |bufs| && bufs[i].dev != 0 && bufs[i].dev == bufs[j].dev ==>
      bufs[i].blockno != bufs[j].blockno
  }

  /** The list runs from the latest to the earliest release. */
  ghost predicate ByRelease(r: seq<nat>, stamp: seq<int>, clock: int) {
    && |stamp| == NBUF && (forall b :: 0 <= b < NBUF ==> stamp[b] < clock)
    && (forall i :: 0 < i < |r| ==> r[i] < NBUF)
    && forall i, j :: 0 < i < j < |r| ==> stamp[r[i]] > stamp[r[j]]
  }

  ghost predicate Complete(r: seq<nat>) {
    |r| == NBUF + 1 && forall b :: 0 <= b <= NBUF ==> b in r
  }

  /** Moving a buffer to the front is what keeps the list in order of release. */
  lemma FrontIsLatest(r: seq<nat>, k: nat, stamp: seq<int>, clock: int)
    requires ByRelease(r, stamp, clock) && 0 < k < |r| && r[0] == HEAD
    ensures ByRelease(Front(r, k), stamp[r[k] := clock], clock + 1)
  {
    var q, t := Front(r, k), stamp[r[k] := clock];
    FrontAt(r, k);
    assert forall i :: 2 <= i < |q| ==> t[q[i]] == stamp[q[i]];
  }

  lemma FrontIsComplete(r: seq<nat>, k: nat)
    requires Complete(r) && 0 < k < |r| && r[0] == HEAD
    ensures Complete(Front(r, k))
  {
    var q := Front(r, k);
    FrontAt(r, k);
    forall b | 0 <= b <= NBUF ensures b in q {
      assert b in r;
      var i :| 0 <= i < |r| && r[i] == b;
      assert b == if i == 0 then q[0] else if i == k then q[1] else if i < k then q[i + 1] else q[i];
    }
  }

  /** Where each buffer sits in the list. */
  ghost function Position(r: seq<nat>, b: nat): (k: nat)
    requires Complete(r) && r[0] == HEAD && b < NBUF
    ensures 0 < k < |r| && r[k] == b
  {
    assert b in r;
    var k :| 0 <= k < |r| && r[k] == b;
    k
  }

  class Bcache {
    var bufs: seq<Buf>
    var next: seq<nat>
    var prev: seq<nat>
    /** The list as the pointers spell it, and the times at which buffers were released. */
    ghost var ring: seq<nat>
    ghost var stamp: seq<int>
    ghost var clock: int

    ghost predicate Valid()
      reads this
    {
      && Ring(next, prev, ring) && Complete(ring) && ByRelease(ring, stamp, clock)
      && |bufs| == NBUF && Unique(bufs) && forall b :: 0 <= b < NBUF ==> bufs[b].refcnt >= 0
    }

    constructor ()
      ensures Valid() && forall b :: 0 <= b < NBUF ==> bufs[b] == Buf(0, 0, false, 0)
    {
      var n: seq<nat>, p: seq<nat> := seq(NBUF + 1, _ => HEAD), seq(NBUF + 1, _ => HEAD);
      ghost var r: seq<nat> := [HEAD];
      var b := 0;
      while b < NBUF
        invariant 0 <= b <= NBUF && Ring(n, p, r) && |r| == b + 1
        invariant forall i :: 0 < i < |r| ==> r[i] == b - i
      {
        InsertRing(n, p, r, b);
        r := [HEAD, b] + r[1..];
        // the new buffer goes between the head and what follows it
        n, p := n[b := n[HEAD]][HEAD := b], p[b := HEAD][n[HEAD] := b];
        b := b + 1;
      }
      next, prev, ring := n, p, r;
      bufs := seq(NBUF, _ => Buf(0, 0, false, 0));
      stamp, clock := seq(NBUF, i => i), NBUF;
      new;
      assert Complete(ring) by {
        forall c | 0 <= c <= NBUF ensures c in ring {
          assert c == if c == NBUF then ring[0] else ring[NBUF - c];
        }
      }
    }

    /** bget's first loop. */
    method FindCached(dev: nat, blockno: nat) returns (found: Option<nat>)
      requires Valid()
      ensures found.Some? ==> found.value < NBUF && bufs[found.value].dev == dev && bufs[found.value].blockno == blockno
      ensures found == None ==> forall b :: 0 <= b < NBUF ==> bufs[b].dev != dev || bufs[b].blockno != blockno
    {
      var b := next[HEAD];
      ghost var k := 1;
      while b != HEAD
        invariant 0 < k <= |ring| && b == (if k < |ring| then ring[k] else HEAD)
        invariant forall i :: 0 < i < k ==> bufs[ring[i]].dev != dev || bufs[ring[i]].blockno != blockno
        decreases |ring| - k
      {
        if bufs[b].dev == dev && bufs[b].blockno == blockno {
          return Some(b);
        }
        b := next[b];
        k := k + 1;
      }
      found := None;
      forall c | 0 <= c < NBUF ensures bufs[c].dev != dev || bufs[c].blockno != blockno {
        assert ring[Position(ring, c)] == c;
      }
    }

    /** bget's second loop: the least recently released among the unreferenced buffers. */
    method FindVictim() returns (victim: Option<nat>)
      requires Valid()
      ensures victim.Some? ==> victim.value < NBUF && bufs[victim.value].refcnt == 0
      ensures victim.Some? ==>
        forall b :: 0 <= b < NBUF && bufs[b].refcnt == 0 ==> stamp[victim.value] <= stamp[b]
      ensures victim == None ==> forall b :: 0 <= b < NBUF ==> bufs[b].refcnt != 0
    {
      var b := prev[HEAD];
      ghost var k := |ring| - 1;
      while b != HEAD
        invariant 0 <= k < |ring| && b == ring[k]
        invariant forall i :: k < i < |ring| ==> bufs[ring[i]].refcnt != 0
        decreases k
      {
        if bufs[b].refcnt == 0 {
          forall c | 0 <= c < NBUF && bufs[c].refcnt == 0 ensures stamp[b] <= stamp[c] {
            assert ring[Position(ring, c)] == c;
          }
          return Some(b);
        }
        b := prev[b];
        k := k - 1;
      }
      victim := None;
      forall c | 0 <= c < NBUF ensures bufs[c].refcnt != 0 {
        assert ring[Position(ring, c)] == c;
      }
    }

    /** None is the panic "bget: no buffers". */
    method Bget(dev: nat, blockno: nat) returns (r: Option<nat>)
      requires Valid() && dev != 0
      modifies `bufs
      ensures Valid()
      ensures r == None <==> forall b :: 0 <= b < NBUF ==>
        !(old(bufs[b]).dev == dev && old(bufs[b]).blockno == blockno) && old(bufs[b]).refcnt != 0
      ensures r == None ==> bufs == old(bufs)
      ensures r.Some? ==> r.value < NBUF && bufs[r.value].dev == dev && bufs[r.value].blockno == blockno
      ensures r.Some? ==> var was := old(bufs)[r.value];
        bufs == old(bufs)[r.value := if was.dev == dev && was.blockno == blockno then was.(refcnt := was.refcnt + 1)
                                     else Buf(dev, blockno, false, 1)]
      ensures r.Some? && !(old(bufs)[r.value].dev == dev && old(bufs)[r.value].blockno == blockno) ==>
        && old(bufs)[r.value].refcnt == 0
        && (forall b :: 0 <= b < NBUF ==> !(old(bufs[b]).dev == dev && old(bufs[b]).blockno == blockno))
        && forall b :: 0 <= b < NBUF && old(bufs[b]).refcnt == 0 ==> stamp[r.value] <= stamp[b]
    {
      r := FindCached(dev, blockno);
      if r.Some? {
        bufs := bufs[r.value := bufs[r.value].(refcnt := bufs[r.value].refcnt + 1)];
        return;
      }
      r := FindVictim();
      if r.Some? {
        bufs := bufs[r.value := Buf(dev, blockno, false, 1)];
      }
    }

    /** Unlink a buffer and insert it first. */
    method MoveToFront(b: nat)
      requires Valid() && b < NBUF
      modifies `next, `prev, `ring, `stamp, `clock
      ensures Valid() && ring == Front(old(ring), Position(old(ring), b))
      ensures stamp == old(stamp)[b := old(clock)] && clock == old(clock) + 1
    {
      ghost var k := Position(ring, b);
      FrontRing(next, prev, ring, k);
      FrontIsLatest(ring, k, stamp, clock);
      FrontIsComplete(ring, k);
      var u := Unlink(next, prev, b);
      var f := InsertFirst(u.0, u.1, b);
      next, prev, ring := f.0, f.1, Front(ring, k);
      stamp, clock := stamp[b := clock], clock + 1;
    }

    /** Drop a reference; an unreferenced buffer becomes the most recently used. */
    method Brelse(b: nat)
      requires Valid() && b < NBUF && bufs[b].refcnt > 0
      modifies this
      ensures Valid()
      ensures bufs == old(bufs)[b := old(bufs)[b].(refcnt := old(bufs)[b].refcnt - 1)]
      ensures if bufs[b].refcnt == 0
        then ring[1] == b && stamp == old(stamp)[b := old(clock)] && clock == old(clock) + 1
        else ring == old(ring) && stamp == old(stamp) && clock == old(clock)
    {
      bufs := bufs[b := bufs[b].(refcnt := bufs[b].refcnt - 1)];
      if bufs[b].refcnt == 0 {
        MoveToFront(b);
      }
    }

    method Bpin(b: nat)
      requires Valid() && b < NBUF
      modifies `bufs
      ensures Valid() && bufs == old(bufs)[b := old(bufs)[b].(refcnt := old(bufs)[b].refcnt + 1)]
    {
      bufs := bufs[b := bufs[b].(refcnt := bufs[b].refcnt + 1)];
    }

    method Bunpin(b: nat)
      requires Valid() && b < NBUF && bufs[b].refcnt > 0
      modifies `bufs
      ensures Valid() && bufs == old(bufs)[b := old(bufs)[b].(refcnt := old(bufs)[b].refcnt - 1)]
    {
      bufs := bufs[b := bufs[b].(refcnt := bufs[b].refcnt - 1)];
    }
  }
}
