/**
 * The fixed rules of the Flappy Bird simulation in src/App.jsx: the
 * play-field constants, the Pipe entity, one gravity tick, and the
 * per-pipe collision, ground and scoring tests.
 */
module Rules {

  // Constants of the component (src/App.jsx:5-11), plus the literals the
  // component writes inline: the bird's fixed left edge (50), its start
  // height (250), the pipe step (3), the spawn distance (200) and the
  // margin kept below the lowest gap (50).
  const Gravity: real := 0.4
  const JumpSpeed: real := -6.0
  const PipeWidth: int := 60
  const GapHeight: int := 150
  const GameWidth: int := 400
  const GameHeight: int := 500
  const BirdSize: int := 30
  const BirdX: int := 50
  const StartY: real := 250.0
  const PipeStep: int := 3
  const SpawnDistance: int := 200
  const GapMargin: int := 50

  /** A pipe pair: leading edge `x`, obstacle heights and the scored flag. */
  datatype Pipe = Pipe(x: int, top: real, bottom: real, passed: bool)

  /** The bird's vertical state: height of its top edge and its speed. */
  datatype Motion = Motion(y: real, v: real)

  /** `Math.max(0, a)`. */
  function Max0(a: real): (r: real)
    ensures r >= 0.0 && r >= a
    ensures r == a || r == 0.0
  {
    if a < 0.0 then 0.0 else a
  }

  // ---------------------------------------------------------------------
  // Gravity

  /**
   * One gravity tick. The position moves by the velocity from before the
   * tick (the interval closure captured it), clamped at the top edge.
   */
  function Fall(m: Motion): Motion
  {
    Motion(Max0(m.y + m.v), m.v + Gravity)
  }

  /** `n` consecutive gravity ticks with no jump in between. */
  function Falls(m: Motion, n: nat): Motion
  {
    if n == 0 then m else Fall(Falls(m, n - 1))
  }

  /** Without a jump the velocity grows by exactly `n * Gravity` in `n` ticks. */
  lemma {:induction false} FallsVelocity(m: Motion, n: nat)
    ensures Falls(m, n).v == m.v + (n as real) * Gravity
  {
    if n > 0 {
      FallsVelocity(m, n - 1);
    }
  }

  /**
   * The bird never rises above the top edge, however fast it moves up: for
   * n > 0 the bound comes from the clamp of the last tick (`Max0`), for
   * n = 0 from the start height.
   */
  lemma FallsStayBelowTop(m: Motion, n: nat)
    requires m.y >= 0.0
    ensures Falls(m, n).y >= 0.0
  {
  }

  /**
   * While the bird is not moving up the clamp never applies, and the
   * one-tick lag shows in the closed form: after `n` ticks it has dropped
   * `n * v + Gravity * n * (n - 1) / 2`, not `... * (n + 1) / 2`.
   */
  lemma {:induction false} FreeFall(m: Motion, n: nat)
    requires m.y >= 0.0 && m.v >= 0.0
    ensures Falls(m, n).y
         == m.y + (n as real) * m.v + Gravity * (n as real) * ((n as real) - 1.0) / 2.0
  {
    if n > 0 {
      var k := (n - 1) as real;
      FreeFall(m, n - 1);
      FallsVelocity(m, n - 1);
      var prev := Falls(m, n - 1);
      assert prev.y == m.y + k * m.v + Gravity * k * (k - 1.0) / 2.0;
      assert prev.v == m.v + k * Gravity;
      assert k * (k - 1.0) >= 0.0 by {
        if k >= 1.0 { assert k * (k - 1.0) >= 0.0 * (k - 1.0); }
      }
      assert prev.y + prev.v >= 0.0;
      assert Falls(m, n).y == prev.y + prev.v;
      assert Gravity * k * (k - 1.0) / 2.0 + k * Gravity
          == Gravity * (k + 1.0) * k / 2.0;
    }
  }

  // ---------------------------------------------------------------------
  // Collision and scoring tests, for a bird whose top edge is at `y`

  /** The pipe's columns [x, x + 60) overlap the bird's columns [50, 80). */
  predicate OverlapsBird(p: Pipe)
  {
    BirdX + BirdSize > p.x && BirdX < p.x + PipeWidth
  }

  /** The bird pokes out of the gap, above it or below it. */
  predicate OutsideGap(y: real, p: Pipe)
  {
    y < p.top || y + BirdSize as real > GameHeight as real - p.bottom
  }

  /** A collision with pipe `p` ends the attempt. */
  predicate Hits(y: real, p: Pipe)
  {
    OverlapsBird(p) && OutsideGap(y, p)
  }

  /** The bird touches the ground. */
  predicate Grounded(y: real)
  {
    y >= (GameHeight - BirdSize) as real
  }

  /** The pipe is not yet scored and its trailing edge is strictly left of the bird. */
  predicate Passing(p: Pipe)
  {
    !p.passed && p.x + PipeWidth < BirdX
  }

  /** One scoring step on one pipe: set `passed` if the pipe is passing. */
  function MarkPassed(p: Pipe): Pipe
  {
    if Passing(p) then p.(passed := true) else p
  }

  /** The geometry every generated pipe has: gap of 150 inside the field, top in [0, 300). */
  predicate Shaped(p: Pipe)
  {
    0.0 <= p.top < (GameHeight - GapHeight - GapMargin) as real
    && p.top + GapHeight as real + p.bottom == GameHeight as real
  }

  /**
   * For a generated pipe the collision test is exactly "the columns
   * overlap and the bird is not inside the 150-high gap below `top`".
   */
  lemma HitsIffOutsideGap(y: real, p: Pipe)
    requires Shaped(p)
    ensures Hits(y, p) <==>
            OverlapsBird(p) && !(p.top <= y && y + BirdSize as real <= p.top + GapHeight as real)
  {
  }

  /** A pipe counts only once its trailing edge is strictly left of x = 50: x = -10 does not. */
  lemma PassingBoundary(p: Pipe)
    requires !p.passed
    ensures Passing(p) <==> p.x <= -11
    ensures !Passing(p.(x := -10)) && Passing(p.(x := -11))
  {
  }

  /** Scoring flips the flag only from false to true, and never touches anything else. */
  lemma MarkPassedFlipsOnce(p: Pipe)
    ensures MarkPassed(p).x == p.x && MarkPassed(p).top == p.top && MarkPassed(p).bottom == p.bottom
    ensures MarkPassed(p).passed <==> p.passed || p.x + PipeWidth < BirdX
    ensures MarkPassed(p) != p <==> Passing(p)
    ensures !Passing(MarkPassed(p))
  {
  }

  /** The collision scenario: bird at 250 against a pipe at x = 50 with top 100 and bottom 250. */
  lemma CollisionScenario()
    ensures Shaped(Pipe(50, 100.0, 250.0, false))
    ensures Hits(250.0, Pipe(50, 100.0, 250.0, false))
  {
  }
}
