/**
 * The collision-and-scoring pass of src/App.jsx:94-108 as functions on the
 * pipe list: which pipes the bird hits, which pipes it scores, and how many.
 */
module Scoring {
  import opened Rules
  import opened PipeStream

  /** Some pipe of the list collides with a bird at height `y`. */
  predicate HitsAny(y: real, ps: seq<Pipe>)
  {
    exists i :: 0 <= i < |ps| && Hits(y, ps[i])
  }

  /** The number of pipes the pass will score. */
  function PassingCount(ps: seq<Pipe>): nat
  {
    if ps == [] then 0 else (if Passing(ps[0]) then 1 else 0) + PassingCount(ps[1..])
  }

  /** The list after the pass: every passing pipe marked, in place, nothing moved. */
  function MarkAll(ps: seq<Pipe>): (r: seq<Pipe>)
    ensures |r| == |ps|
    ensures forall i :: 0 <= i < |ps| ==> r[i] == MarkPassed(ps[i])
  {
    if ps == [] then [] else [MarkPassed(ps[0])] + MarkAll(ps[1..])
  }

  /** The number of positions whose flag went from false to true between two lists. */
  function Flips(before: seq<Pipe>, after: seq<Pipe>): nat
    requires |before| == |after|
  {
    if before == [] then 0
    else (if !before[0].passed && after[0].passed then 1 else 0) + Flips(before[1..], after[1..])
  }

  // ---------------------------------------------------------------------
  // Lemmas

  /** The count of passing pipes adds up over concatenation. */
  lemma {:induction false} PassingCountAppend(a: seq<Pipe>, b: seq<Pipe>)
    ensures PassingCount(a + b) == PassingCount(a) + PassingCount(b)
  {
    if a == [] {
      assert a + b == b;
    } else {
      assert (a + b)[1..] == a[1..] + b;
      PassingCountAppend(a[1..], b);
    }
  }

  /** The score added by a pass, the count of passing pipes, is exactly the number of flags it flips. */
  lemma {:induction false} FlipsArePassing(ps: seq<Pipe>)
    ensures Flips(ps, MarkAll(ps)) == PassingCount(ps)
  {
    if ps != [] {
      assert MarkAll(ps)[1..] == MarkAll(ps[1..]);
      FlipsArePassing(ps[1..]);
    }
  }

  /**
   * The pass never clears a flag, never moves a pipe, and leaves nothing
   * passing, so a second pass scores nothing: each pipe is scored once.
   */
  lemma {:induction false} MarkAllSettles(ps: seq<Pipe>)
    ensures forall i :: 0 <= i < |ps| ==> ps[i].passed ==> MarkAll(ps)[i].passed
    ensures PassingCount(MarkAll(ps)) == 0
    ensures MarkAll(MarkAll(ps)) == MarkAll(ps)
  {
    if ps != [] {
      assert MarkAll(ps)[1..] == MarkAll(ps[1..]);
      MarkAllSettles(ps[1..]);
    }
  }

  /** Marking only changes flags, so it keeps the pipe list well formed. */
  lemma MarkAllWellFormed(ps: seq<Pipe>)
    requires WellFormed(ps)
    ensures WellFormed(MarkAll(ps))
  {
  }

  /**
   * One more pipe visited by the pass: the hit verdict, the count and the
   * partly marked list each extend by that pipe alone.
   */
  lemma ScanStep(y: real, ps: seq<Pipe>, i: nat)
    requires i < |ps|
    ensures (MarkAll(ps[..i]) + ps[i..])[i] == ps[i]
    ensures MarkAll(ps[..i + 1]) + ps[i + 1..]
         == (MarkAll(ps[..i]) + ps[i..])[i := MarkPassed(ps[i])]
    ensures PassingCount(ps[..i + 1])
         == PassingCount(ps[..i]) + (if Passing(ps[i]) then 1 else 0)
    ensures HitsAny(y, ps[..i + 1]) <==> HitsAny(y, ps[..i]) || Hits(y, ps[i])
  {
    assert ps[..i + 1] == ps[..i] + [ps[i]];
    PassingCountAppend(ps[..i], [ps[i]]);
    var marked := MarkAll(ps[..i + 1]) + ps[i + 1..];
    var stepped := (MarkAll(ps[..i]) + ps[i..])[i := MarkPassed(ps[i])];
    assert |marked| == |stepped| == |ps|;
    forall k | 0 <= k < |ps|
      ensures marked[k] == stepped[k]
    {
      if k < i {
        assert ps[..i + 1][k] == ps[..i][k];
      }
    }
    if HitsAny(y, ps[..i + 1]) && !Hits(y, ps[i]) {
      var k :| 0 <= k < i + 1 && Hits(y, ps[..i + 1][k]);
      assert ps[..i][k] == ps[k];
    }
    if HitsAny(y, ps[..i]) {
      var k :| 0 <= k < i && Hits(y, ps[..i][k]);
      assert ps[..i + 1][k] == ps[k];
    }
    if Hits(y, ps[i]) {
      assert ps[..i + 1][i] == ps[i];
    }
  }

  /** Taking one pipe out of a list takes it out of the multiset. */
  lemma RemoveAtMultiset(qs: seq<Pipe>, j: nat)
    requires j < |qs|
    ensures multiset(qs[..j] + qs[j + 1..]) == multiset(qs) - multiset{qs[j]}
  {
    assert qs == qs[..j] + [qs[j]] + qs[j + 1..];
    assert multiset(qs) == multiset(qs[..j]) + multiset{qs[j]} + multiset(qs[j + 1..]);
  }

  /** Taking one pipe out of a list takes it out of the count. */
  lemma RemoveAtCount(qs: seq<Pipe>, j: nat)
    requires j < |qs|
    ensures PassingCount(qs)
         == PassingCount(qs[..j] + qs[j + 1..]) + (if Passing(qs[j]) then 1 else 0)
  {
    assert qs == qs[..j] + ([qs[j]] + qs[j + 1..]);
    PassingCountAppend(qs[..j], [qs[j]] + qs[j + 1..]);
    PassingCountAppend([qs[j]], qs[j + 1..]);
    PassingCountAppend(qs[..j], qs[j + 1..]);
  }

  /**
   * The order in which the pass visits the pipes does not matter: any
   * permutation of the list gives the same collision verdict and the same score.
   */
  lemma OrderIrrelevant(y: real, ps: seq<Pipe>, qs: seq<Pipe>)
    requires multiset(ps) == multiset(qs)
    ensures HitsAny(y, ps) <==> HitsAny(y, qs)
    ensures PassingCount(ps) == PassingCount(qs)
  {
    HitsAnyBySet(y, ps, qs);
    HitsAnyBySet(y, qs, ps);
    PassingCountPermutation(ps, qs);
  }

  /** The count of passing pipes depends only on the multiset of pipes. */
  lemma {:induction false} PassingCountPermutation(ps: seq<Pipe>, qs: seq<Pipe>)
    requires multiset(ps) == multiset(qs)
    ensures PassingCount(ps) == PassingCount(qs)
    decreases |ps|
  {
    if ps == [] {
      assert |qs| == |multiset(qs)| == 0;
    } else {
      var p := ps[0];
      assert p in multiset(qs);
      var j :| 0 <= j < |qs| && qs[j] == p;
      RemoveAtMultiset(qs, j);
      RemoveAtCount(qs, j);
      assert ps == [p] + ps[1..];
      assert multiset(ps[1..]) == multiset(ps) - multiset{p};
      PassingCountPermutation(ps[1..], qs[..j] + qs[j + 1..]);
    }
  }

  /** A pipe that collides in one list collides in any list holding the same pipes. */
  lemma HitsAnyBySet(y: real, ps: seq<Pipe>, qs: seq<Pipe>)
    requires multiset(ps) == multiset(qs)
    ensures HitsAny(y, ps) ==> HitsAny(y, qs)
  {
    if HitsAny(y, ps) {
      var i :| 0 <= i < |ps| && Hits(y, ps[i]);
      assert ps[i] in multiset(qs);
      var j :| 0 <= j < |qs| && qs[j] == ps[i];
    }
  }
}
