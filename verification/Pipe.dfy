/** The ring of kernel/pipe.c, between any number of writers and readers: the parts of
  pipewrite and piperead that run without sleeping. */
module Pipe {

  const PIPESIZE: nat := 512

  type Byte = n: nat | n < 256

  /** nread and nwrite are 32-bit counters.  log is what has ever gone in and taken how many
      bytes have come out; no code reads these two. */
  datatype Ring = Ring(data: seq<Byte>, nread: nat, nwrite: nat, log: seq<Byte>, taken: nat)

  function Wrap(n: nat): nat {
    n % 4294967296
  }

  predicate ByteOk(data: seq<Byte>, log: seq<Byte>, taken: nat, k: nat) {
    taken <= k < |log| && |data| == PIPESIZE ==> data[k % 512] == log[k]
  }

  /** At most 512 bytes are outstanding and the ring holds them. */
  ghost predicate Inv(r: Ring) {
    && |r.data| == PIPESIZE && r.taken <= |r.log| <= r.taken + PIPESIZE && r.nread == Wrap(r.taken)
    && r.nwrite == Wrap(|r.log|)
    && forall k: nat :: ByteOk(r.data, r.log, r.taken, k)
  }

  function Empty(): (r: Ring)
    ensures Inv(r)
  {
    Ring(seq(PIPESIZE, _ => 0), 0, 0, [], 0)
  }

  type Consistent = r: Ring | Inv(r) witness Empty()

  /** The tests on 32-bit counters are right although they wrap: the addition in the first one
      does, too. */
  lemma TestsAreRight(r: Consistent)
    ensures r.nwrite == Wrap(r.nread + PIPESIZE) <==> |r.log| == r.taken + PIPESIZE
    ensures r.nread == r.nwrite <==> |r.log| == r.taken
  {
    WrapDistance(r.taken, |r.log| - r.taken, PIPESIZE);
    WrapDistance(r.taken, |r.log| - r.taken, 0);
  }

  lemma WrapDistance(a: nat, d: nat, e: nat)
    requires d <= 512 && e <= 512
    ensures Wrap(a + d) == Wrap(Wrap(a) + e) <==> d == e
  {
  }

  lemma WrapSlot(n: nat)
    ensures Wrap(n) % 512 == n % 512 && Wrap(Wrap(n) + 1) == Wrap(n + 1)
  {
    assert n % 4294967296 % 512 == n % 512;
  }

  lemma OtherSlot(j: nat, k: nat)
    requires j < k < j + 512
    ensures j % 512 != k % 512
  {
  }

  function Pushed(r: Ring, c: Byte): Ring
    requires |r.data| == PIPESIZE
  {
    r.(data := r.data[r.nwrite % 512 := c], nwrite := Wrap(r.nwrite + 1), log := r.log + [c])
  }

  /** A byte is stored; none that is still to be read is overwritten. */
  lemma PushedInv(r: Consistent, c: Byte)
    requires |r.log| < r.taken + PIPESIZE
    ensures Inv(Pushed(r, c))
  {
    WrapSlot(|r.log|);
    var data, log := Pushed(r, c).data, Pushed(r, c).log;
    forall k: nat ensures ByteOk(data, log, r.taken, k) {
      assert ByteOk(r.data, r.log, r.taken, k);
      if r.taken <= k < |r.log| { OtherSlot(k, |r.log|); }
    }
  }

  function Popped(r: Ring): Ring {
    r.(nread := Wrap(r.nread + 1), taken := r.taken + 1)
  }

  lemma PoppedInv(r: Consistent)
    requires r.taken < |r.log|
    ensures Inv(Popped(r)) && r.data[r.nread % 512] == r.log[r.taken]
  {
    WrapSlot(r.taken);
    assert ByteOk(r.data, r.log, r.taken, r.taken);
    var n := r.taken + 1;
    forall k: nat ensures ByteOk(r.data, r.log, n, k) { assert ByteOk(r.data, r.log, r.taken, k); }
  }

  function Min(a: nat, b: nat): nat {
    if a < b then a else b
  }

  class Pipe {
    var r: Consistent

    constructor ()
      ensures r.log == [] && r.taken == 0
    {
      r := Empty();
    }

    /** pipewrite from byte i of src on, until it is done or has to sleep: as much as there is
        room for goes in, in order, and readers see nothing else. */
    method Write(src: seq<Byte>, i: nat) returns (end: nat)
      requires i <= |src|
      modifies this
      ensures end == i + Min(|src| - i, old(r.taken) + PIPESIZE - |old(r.log)|)
      ensures r.log == old(r.log) + src[i..end] && r.taken == old(r.taken)
    {
      end := i;
      while end < |src|
        invariant i <= end <= |src| && r.log == old(r.log) + src[i..end] && r.taken == old(r.taken)
      {
        TestsAreRight(r);
        if r.nwrite == Wrap(r.nread + PIPESIZE) {
          return;
        }
        PushedInv(r, src[end]);
        assert src[i..end] + [src[end]] == src[i..end + 1];
        r := Pushed(r, src[end]);
        end := end + 1;
      }
    }

    /** piperead after its wait: up to n bytes come out, the oldest first, each once. */
    method Read(n: nat) returns (got: seq<Byte>)
      modifies this
      ensures |got| == Min(n, |old(r.log)| - old(r.taken)) && got == old(r.log)[old(r.taken)..old(r.taken) + |got|]
      ensures r.log == old(r.log) && r.taken == old(r.taken) + |got|
    {
      got := [];
      var i := 0;
      while i < n
        invariant 0 <= i <= n && |got| == i && r.log == old(r.log) && r.taken == old(r.taken) + i
        invariant got == old(r.log)[old(r.taken)..old(r.taken) + i]
      {
        TestsAreRight(r);
        if r.nread == r.nwrite {
          return;
        }
        PoppedInv(r);
        var ch := r.data[r.nread % 512];
        r := Popped(r);
        got := got + [ch];
        i := i + 1;
      }
    }
  }

  // ---------------------------------------------------------------- runs

  datatype Event = Write(c: Byte) | Read(got: Byte)

  /** A write needs room and a read a byte. */
  predicate Enabled(r: Ring, e: Event) {
    && |r.data| == PIPESIZE
    && match e
       case Write(_) => r.nwrite != Wrap(r.nread + PIPESIZE)
       case Read(c) => r.nread != r.nwrite && c == r.data[r.nread % 512]
  }

  ghost function Next(r: Ring, e: Event): Ring
    requires Enabled(r, e)
  {
    match e
    case Write(c) => Pushed(r, c)
    case Read(_) => Popped(r)
  }

  /** t is reached from r by these events. */
  ghost predicate Reaches(r: Ring, es: seq<Event>, t: Ring)
    decreases |es|
  {
    if es == [] then r == t else Enabled(r, es[0]) && Reaches(Next(r, es[0]), es[1..], t)
  }

  function Wrote(es: seq<Event>): seq<Byte> {
    if es == [] then [] else (if es[0].Write? then [es[0].c] else []) + Wrote(es[1..])
  }

  function Got(es: seq<Event>): seq<Byte> {
    if es == [] then [] else (if es[0].Read? then [es[0].got] else []) + Got(es[1..])
  }

  /** What a byte in or out does: l is the log before and m after, of which i and j bytes have been
      taken. */
  ghost predicate Moved(l: seq<Byte>, i: nat, e: Event, m: seq<Byte>, j: nat) {
    match e
    case Write(c) => m == l + [c] && j == i
    case Read(c) => m == l && j == i + 1 && i < |l| && l[i] == c
  }

  lemma StepKeeps(r: Consistent, e: Event)
    requires Enabled(r, e)
    ensures Inv(Next(r, e)) && Moved(r.log, r.taken, e, Next(r, e).log, Next(r, e).taken)
  {
    TestsAreRight(r);
    match e
    case Write(c) => PushedInv(r, c);
    case Read(_) => PoppedInv(r);
  }

  /** And what a run does. */
  ghost predicate Ran(l: seq<Byte>, i: nat, es: seq<Event>, m: seq<Byte>, j: nat) {
    m == l + Wrote(es) && j == i + |Got(es)| && j <= |m| && Got(es) == m[i..j]
  }

  lemma RanNext(l: seq<Byte>, i: nat, es: seq<Event>, k: seq<Byte>, n: nat, m: seq<Byte>, j: nat)
    requires es != [] && Moved(l, i, es[0], k, n) && Ran(k, n, es[1..], m, j)
    ensures Ran(l, i, es, m, j)
  {
    match es[0]
    case Write(c) => assert l + ([c] + Wrote(es[1..])) == l + [c] + Wrote(es[1..]);
    case Read(c) => assert m[i..j] == [m[i]] + m[n..j];
  }

  lemma {:induction false} RunKeeps(r: Consistent, es: seq<Event>, t: Ring)
    requires Reaches(r, es, t)
    ensures Inv(t) && t.log == r.log + Wrote(es)
    ensures t.taken == r.taken + |Got(es)| && Got(es) == t.log[r.taken..t.taken]
    decreases |es|
  {
    if es != [] {
      var u := Next(r, es[0]);
      StepKeeps(r, es[0]);
      RunKeeps(u, es[1..], t);
      RanNext(r.log, r.taken, es, u.log, u.taken, t.log, t.taken);
    }
  }

  lemma Outstanding(r: Consistent)
    ensures r.taken <= |r.log| <= r.taken + PIPESIZE
  {
  }

  lemma PrefixOf(es: seq<Event>, m: seq<Byte>, j: nat)
    requires Ran([], 0, es, m, j) && |m| <= j + PIPESIZE
    ensures Got(es) <= Wrote(es) && |Wrote(es)| <= |Got(es)| + PIPESIZE
  {
    assert [] + Wrote(es) == Wrote(es);
  }

  /** In any run from an empty pipe the bytes that came out are a prefix of those that went in,
      and at most 512 are still in it. */
  lemma DeliveredIsPrefix(r: Consistent, es: seq<Event>, t: Ring)
    requires r.log == [] && r.taken == 0 && Reaches(r, es, t)
    ensures Got(es) <= Wrote(es) && |Wrote(es)| <= |Got(es)| + PIPESIZE
  {
    RunKeeps(r, es, t);
    Outstanding(t);
    PrefixOf(es, t.log, t.taken);
  }
}
