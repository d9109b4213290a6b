/**
 * The meaning of writing and reading through a table of references. Memory is a
 * sequence of cells; a reference is the index of the cell it is bound to. These
 * functions specify what the proxy reference tuple's assignments and its conversion to
 * a plain tuple do to, and read from, the memory.
 */
module WriteThrough {

  /** Every reference is bound to a cell of a memory of `size` cells. */
  predicate InMemory(refs: seq<nat>, size: nat) {
    forall i :: 0 <= i < |refs| ==> refs[i] < size
  }

  /** No two references are bound to the same cell. */
  predicate Distinct(refs: seq<nat>) {
    forall i, j :: 0 <= i < j < |refs| ==> refs[i] != refs[j]
  }

  /** No reference of `refs` is bound to a cell that a reference of `others` is bound to. */
  predicate Disjoint(refs: seq<nat>, others: seq<nat>) {
    forall i, j :: 0 <= i < |refs| && 0 <= j < |others| ==> refs[i] != others[j]
  }

  /** No later reference of `refs` is bound to the cell of reference `i`. */
  predicate LastWriterOf(refs: seq<nat>, i: nat)
    requires i < |refs|
  {
    forall j :: i < j < |refs| ==> refs[j] != refs[i]
  }

  /**
   * The memory after `vals[0]` is written through `refs[0]`, then `vals[1]` through
   * `refs[1]`, and so on in ascending index order. Cells no reference is bound to keep
   * their contents.
   */
  function WriteAll<V>(s: seq<V>, refs: seq<nat>, vals: seq<V>): (r: seq<V>)
    requires |refs| == |vals| && InMemory(refs, |s|)
    ensures |r| == |s|
    ensures forall c :: 0 <= c < |s| && c !in refs ==> r[c] == s[c]
    decreases |refs|
  {
    if refs == [] then s
    else
      var n := |refs| - 1;
      WriteAll(s, refs[..n], vals[..n])[refs[n] := vals[n]]
  }

  /** The values read through `refs`, in index order. */
  function Materialize<V>(s: seq<V>, refs: seq<nat>): (t: seq<V>)
    requires InMemory(refs, |s|)
    ensures |t| == |refs|
  {
    seq(|refs|, i requires 0 <= i < |refs| => s[refs[i]])
  }

  /** A cell written more than once holds the value of its last write. */
  lemma {:induction false} LastWriteWins<V>(s: seq<V>, refs: seq<nat>, vals: seq<V>, i: nat)
    requires |refs| == |vals| && InMemory(refs, |s|)
    requires i < |refs| && LastWriterOf(refs, i)
    ensures WriteAll(s, refs, vals)[refs[i]] == vals[i]
    decreases |refs|
  {
    var n := |refs| - 1;
    if i < n {
      assert LastWriterOf(refs[..n], i);
      LastWriteWins(s, refs[..n], vals[..n], i);
    }
  }

  /** With distinct referents every written cell holds the value written through it. */
  lemma {:induction false} WriteAllDistinct<V>(s: seq<V>, refs: seq<nat>, vals: seq<V>)
    requires |refs| == |vals| && InMemory(refs, |s|) && Distinct(refs)
    ensures forall i :: 0 <= i < |refs| ==> WriteAll(s, refs, vals)[refs[i]] == vals[i]
  {
    forall i | 0 <= i < |refs|
      ensures WriteAll(s, refs, vals)[refs[i]] == vals[i]
    {
      LastWriteWins(s, refs, vals, i);
    }
  }

  /** Writing a tuple through distinct references and reading it back yields that tuple. */
  lemma {:induction false} ReadBackAfterWrite<V>(s: seq<V>, refs: seq<nat>, vals: seq<V>)
    requires |refs| == |vals| && InMemory(refs, |s|) && Distinct(refs)
    ensures Materialize(WriteAll(s, refs, vals), refs) == vals
  {
    WriteAllDistinct(s, refs, vals);
  }

  /** Reading through `refs` depends on the referenced cells only. */
  lemma MaterializeReadsReferents<V>(s: seq<V>, s': seq<V>, refs: seq<nat>)
    requires InMemory(refs, |s|) && InMemory(refs, |s'|)
    requires forall i :: 0 <= i < |refs| ==> s[refs[i]] == s'[refs[i]]
    ensures Materialize(s, refs) == Materialize(s', refs)
  {
  }

  /** A write through one table of references is invisible through a disjoint one. */
  lemma DisjointWriteInvisible<V>(s: seq<V>, refs: seq<nat>, vals: seq<V>, others: seq<nat>)
    requires |refs| == |vals| && InMemory(refs, |s|) && InMemory(others, |s|)
    requires Disjoint(refs, others)
    ensures Materialize(WriteAll(s, refs, vals), others) == Materialize(s, others)
  {
    var w := WriteAll(s, refs, vals);
    forall j | 0 <= j < |others|
      ensures w[others[j]] == s[others[j]]
    {
    }
    MaterializeReadsReferents(w, s, others);
  }

  /** Assigning a proxy its own current value leaves memory as it was, aliases or not. */
  lemma {:induction false} SelfAssignmentIsNoOp<V>(s: seq<V>, refs: seq<nat>)
    requires InMemory(refs, |s|)
    ensures WriteAll(s, refs, Materialize(s, refs)) == s
    decreases |refs|
  {
    if refs != [] {
      var n := |refs| - 1;
      assert Materialize(s, refs)[..n] == Materialize(s, refs[..n]);
      SelfAssignmentIsNoOp(s, refs[..n]);
    }
  }

  /** A two-element write is the first write followed by the second. */
  lemma TwoWrites<V>(s: seq<V>, refs: seq<nat>, a: V, b: V)
    requires |refs| == 2 && InMemory(refs, |s|)
    ensures WriteAll(s, refs, [a, b]) == s[refs[0] := a][refs[1] := b]
  {
    assert refs[..1][..0] == [];
  }

  /** When both references of a pair write alias one cell, that cell ends up with the second value. */
  lemma AliasedPairKeepsSecond<V>(s: seq<V>, refs: seq<nat>, a: V, b: V)
    requires |refs| == 2 && InMemory(refs, |s|) && refs[0] == refs[1]
    ensures WriteAll(s, refs, [a, b])[refs[0]] == b
    ensures forall c :: 0 <= c < |s| && c != refs[0] ==> WriteAll(s, refs, [a, b])[c] == s[c]
  {
    TwoWrites(s, refs, a, b);
  }

  /**
   * Elementwise copy inside one memory from the cells `srcs` to the cells `refs`, each
   * value read just before it is written: the direct copy that reading a referenced tuple
   * into a temporary first avoids.
   */
  function CopyInterleaved<V>(s: seq<V>, refs: seq<nat>, srcs: seq<nat>): (r: seq<V>)
    requires |refs| == |srcs| && InMemory(refs, |s|) && InMemory(srcs, |s|)
    ensures |r| == |s|
    ensures forall c :: 0 <= c < |s| && c !in refs ==> r[c] == s[c]
    decreases |refs|
  {
    if refs == [] then s
    else
      var n := |refs| - 1;
      var p := CopyInterleaved(s, refs[..n], srcs[..n]);
      p[refs[n] := p[srcs[n]]]
  }

  /** If the source cells and the target cells are disjoint, the direct copy agrees with reading first. */
  lemma {:induction false} InterleavedAgreesWhenDisjoint<V>(s: seq<V>, refs: seq<nat>, srcs: seq<nat>)
    requires |refs| == |srcs| && InMemory(refs, |s|) && InMemory(srcs, |s|)
    requires Disjoint(srcs, refs)
    ensures CopyInterleaved(s, refs, srcs) == WriteAll(s, refs, Materialize(s, srcs))
    decreases |refs|
  {
    if refs != [] {
      var n := |refs| - 1;
      assert Disjoint(srcs[..n], refs[..n]);
      InterleavedAgreesWhenDisjoint(s, refs[..n], srcs[..n]);
      assert Materialize(s, srcs)[..n] == Materialize(s, srcs[..n]);
    }
  }

  /** Swapping two cells through references shows the direct copy differs once source and target overlap. */
  lemma InterleavedDiffersOnOverlap()
    ensures WriteAll([1, 2], [0, 1], Materialize([1, 2], [1, 0])) == [2, 1]
    ensures CopyInterleaved([1, 2], [0, 1], [1, 0]) == [2, 2]
  {
    assert Materialize([1, 2], [1, 0]) == [2, 1];
    assert [0, 1][..1] == [0] && [1, 0][..1] == [1];
    assert [0, 1][..1][..0] == [] && [1, 0][..1][..0] == [];
  }
}
