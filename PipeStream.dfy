/**
 * The pipe tick of src/App.jsx:48-65 as functions on the pipe sequence:
 * shift every pipe left, drop the ones that left the field, and append a
 * freshly drawn pipe when the previous list says it is time.
 */
module PipeStream {
  import opened Rules

  /** One pipe moved left by one step (`{ ...pipe, x: pipe.x - 3 }`). */
  function Shift(p: Pipe): Pipe
  {
    p.(x := p.x - PipeStep)
  }

  /** The pipe's trailing edge is still inside the field. */
  predicate OnScreen(p: Pipe)
  {
    p.x + PipeWidth > 0
  }

  /** The `map` of src/App.jsx:50: every pipe moved left, everything else kept, in order. */
  function ShiftAll(ps: seq<Pipe>): (r: seq<Pipe>)
    ensures |r| == |ps|
    ensures forall i :: 0 <= i < |ps| ==>
              r[i].x == ps[i].x - PipeStep && r[i].top == ps[i].top
              && r[i].bottom == ps[i].bottom && r[i].passed == ps[i].passed
  {
    if ps == [] then [] else [Shift(ps[0])] + ShiftAll(ps[1..])
  }

  /** The `filter` of src/App.jsx:51: keep the pipes still on screen, in order. */
  function KeepOnScreen(ps: seq<Pipe>): (r: seq<Pipe>)
    ensures |r| <= |ps|
    ensures forall p :: p in r ==> p in ps && OnScreen(p)
    ensures forall p :: p in ps && OnScreen(p) ==> p in r
  {
    if ps == [] then []
    else (if OnScreen(ps[0]) then [ps[0]] else []) + KeepOnScreen(ps[1..])
  }

  /** Shift then filter: the pipes that survive one tick. */
  function Advance(ps: seq<Pipe>): seq<Pipe>
  {
    KeepOnScreen(ShiftAll(ps))
  }

  /** The spawn test of src/App.jsx:54, made on the list from before the shift. */
  predicate ShouldSpawn(prev: seq<Pipe>)
  {
    |prev| == 0 || prev[|prev| - 1].x < GameWidth - SpawnDistance
  }

  /**
   * The pipe appended at src/App.jsx:56 for the random draw `r`: at the right
   * edge, not scored, `top = r * 300` and the rest of the column below the gap.
   */
  function NewPipe(r: real): (p: Pipe)
    ensures p.x == GameWidth && !p.passed
    ensures p.top == r * (GameHeight - GapHeight - GapMargin) as real
    ensures p.top + GapHeight as real + p.bottom == GameHeight as real
    ensures 0.0 <= r < 1.0 ==> Shaped(p)
  {
    var top := r * (GameHeight - GapHeight - GapMargin) as real;
    Pipe(GameWidth, top, GameHeight as real - (top + GapHeight as real), false)
  }

  /** The whole pipe tick, for the random draw `r`. */
  function NextPipes(prev: seq<Pipe>, r: real): seq<Pipe>
  {
    Advance(prev) + (if ShouldSpawn(prev) then [NewPipe(r)] else [])
  }

  /** Pipes are ordered by strictly increasing leading edge. */
  predicate SortedByX(ps: seq<Pipe>)
  {
    forall i, j :: 0 <= i < j < |ps| ==> ps[i].x < ps[j].x
  }

  /** The invariant of the pipe list: generated geometry, inside the field, ordered. */
  predicate WellFormed(ps: seq<Pipe>)
  {
    (forall i :: 0 <= i < |ps| ==> Shaped(ps[i]) && ps[i].x <= GameWidth)
    && SortedByX(ps)
  }

  // ---------------------------------------------------------------------
  // Lemmas

  /** The filter distributes over concatenation, so it keeps relative order. */
  lemma {:induction false} KeepOnScreenAppend(a: seq<Pipe>, b: seq<Pipe>)
    ensures KeepOnScreen(a + b) == KeepOnScreen(a) + KeepOnScreen(b)
  {
    if a == [] {
      assert a + b == b;
    } else {
      assert (a + b)[1..] == a[1..] + b;
      KeepOnScreenAppend(a[1..], b);
    }
  }

  /** A pipe is dropped by the tick if and only if its shifted trailing edge is at or left of 0. */
  lemma AdvanceDropsIff(ps: seq<Pipe>, i: nat)
    requires i < |ps|
    ensures Shift(ps[i]) in Advance(ps) <==> ps[i].x - PipeStep + PipeWidth > 0
  {
    assert ShiftAll(ps)[i] == Shift(ps[i]);
  }

  /** Every pipe the tick keeps is some earlier pipe moved left by 3, with its other fields intact. */
  lemma AdvanceOrigin(ps: seq<Pipe>, q: Pipe)
    requires q in Advance(ps)
    ensures exists i :: 0 <= i < |ps| && q == Shift(ps[i]) && OnScreen(q)
  {
    var i :| 0 <= i < |ShiftAll(ps)| && ShiftAll(ps)[i] == q;
    assert q == Shift(ps[i]);
  }

  /** If every pipe is on screen the filter keeps them all. */
  lemma {:induction false} KeepAllOnScreen(ps: seq<Pipe>)
    requires forall i :: 0 <= i < |ps| ==> OnScreen(ps[i])
    ensures KeepOnScreen(ps) == ps
  {
    if ps != [] {
      KeepAllOnScreen(ps[1..]);
      assert ps == [ps[0]] + ps[1..];
    }
  }

  /** On an ordered list the filter drops a prefix: pipes only leave at the left edge. */
  lemma {:induction false} KeepDropsPrefix(ps: seq<Pipe>) returns (k: nat)
    requires SortedByX(ps)
    ensures k <= |ps| && KeepOnScreen(ps) == ps[k..]
    ensures forall i :: 0 <= i < k ==> !OnScreen(ps[i])
  {
    if ps == [] {
      k := 0;
    } else if OnScreen(ps[0]) {
      KeepAllOnScreen(ps);
      k := 0;
    } else {
      var k' := KeepDropsPrefix(ps[1..]);
      k := k' + 1;
      assert ps[1..][k'..] == ps[k..];
    }
  }

  /**
   * A tick appends exactly one pipe if and only if the previous list was
   * empty or its last pipe was left of x = 200; the new pipe comes last and
   * the survivors keep their order in front of it.
   */
  lemma SpawnIff(prev: seq<Pipe>, r: real)
    ensures |NextPipes(prev, r)| == |Advance(prev)| + 1 <==> ShouldSpawn(prev)
    ensures !ShouldSpawn(prev) ==> NextPipes(prev, r) == Advance(prev)
    ensures ShouldSpawn(prev) ==>
              NextPipes(prev, r)[..|Advance(prev)|] == Advance(prev)
              && NextPipes(prev, r)[|Advance(prev)|] == NewPipe(r)
  {
  }

  /** A tick grows the list by at most one pipe. */
  lemma GrowsByAtMostOne(prev: seq<Pipe>, r: real)
    ensures |NextPipes(prev, r)| <= |prev| + 1
  {
  }

  /** Shifting keeps an ordered list ordered and moves every pipe strictly left of the right edge. */
  lemma ShiftAllWellFormed(ps: seq<Pipe>)
    requires WellFormed(ps)
    ensures WellFormed(ShiftAll(ps))
    ensures forall i :: 0 <= i < |ps| ==> ShiftAll(ps)[i].x < GameWidth
  {
    var r := ShiftAll(ps);
    forall i | 0 <= i < |r|
      ensures Shaped(r[i]) && r[i].x < GameWidth
    {
      assert Shaped(ps[i]) && ps[i].x <= GameWidth;
    }
    forall i, j | 0 <= i < j < |r|
      ensures r[i].x < r[j].x
    {
      assert ps[i].x < ps[j].x;
    }
  }

  /** Dropping a prefix keeps a list well formed. */
  lemma WellFormedSuffix(ps: seq<Pipe>, k: nat)
    requires WellFormed(ps) && k <= |ps|
    ensures WellFormed(ps[k..])
  {
    assert forall i :: 0 <= i < |ps| - k ==> ps[k..][i] == ps[k + i];
  }

  /** Appending a generated pipe right of every other pipe keeps a list well formed. */
  lemma WellFormedAppend(ps: seq<Pipe>, p: Pipe)
    requires WellFormed(ps) && Shaped(p) && p.x <= GameWidth
    requires forall i :: 0 <= i < |ps| ==> ps[i].x < p.x
    ensures WellFormed(ps + [p])
  {
    var next := ps + [p];
    assert forall i :: 0 <= i < |ps| ==> next[i] == ps[i];
  }

  /** A tick with a draw in [0, 1) keeps the pipe list well formed. */
  lemma NextPipesWellFormed(prev: seq<Pipe>, r: real)
    requires WellFormed(prev) && 0.0 <= r < 1.0
    ensures WellFormed(NextPipes(prev, r))
  {
    var shifted := ShiftAll(prev);
    ShiftAllWellFormed(prev);
    var k := KeepDropsPrefix(shifted);
    WellFormedSuffix(shifted, k);
    var kept := Advance(prev);
    if ShouldSpawn(prev) {
      assert forall i :: 0 <= i < |kept| ==> kept[i] == shifted[k + i];
      WellFormedAppend(kept, NewPipe(r));
    }
  }
}
