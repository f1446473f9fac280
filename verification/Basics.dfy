/** What several modules share. */
module Basics {

  /** The number of blocks that an operation may log (kernel/param.h). */
  const MAXOPBLOCKS: nat := 10

  /** The number of buffers in the cache (kernel/param.h). */
  const NBUF: nat := 30

  datatype Option<+T> = None | Some(value: T)

  lemma SubsetSize<T>(a: set<T>, b: set<T>)
    requires a <= b
    ensures |a| <= |b|
  {
    assert b == a + (b - a);
  }

  /** Entries j and k of q differ. */
  predicate Differ(q: seq<nat>, j: nat, k: nat) {
    j < k < |q| ==> q[j] != q[k]
  }
}
