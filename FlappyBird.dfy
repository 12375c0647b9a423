/**
 * The state of the `App` component of src/App.jsx and its five state
 * transitions: start, gravity tick, jump, pipe tick and the
 * collision-and-scoring evaluation. Each effect body is one atomic step;
 * the timers that schedule the ticks are left to the caller.
 */
module FlappyBird {
  import opened Rules
  import opened PipeStream
  import opened Scoring

  class Game {
    // The five hook variables of src/App.jsx:13-17.
    var birdY: real
    var velocity: real
    var pipes: seq<Pipe>
    var score: nat
    var isRunning: bool

    /** The state invariant: the bird is never above the field, and the pipe list is well formed. */
    ghost predicate Valid()
      reads this
    {
      birdY >= 0.0 && WellFormed(pipes)
    }

    /** The bird's vertical state. */
    function Vertical(): Motion
      reads this
    {
      Motion(birdY, velocity)
    }

    /** The initial hook values: bird at 250, at rest, no pipes, no score, not running. */
    constructor ()
      ensures Valid()
      ensures birdY == StartY && velocity == 0.0 && pipes == [] && score == 0 && !isRunning
    {
      birdY := StartY;
      velocity := 0.0;
      pipes := [];
      score := 0;
      isRunning := false;
    }

    /** `startGame`: a fresh attempt, whatever the state before. */
    method StartGame()
      modifies this
      ensures Valid()
      ensures birdY == StartY && velocity == 0.0 && pipes == [] && score == 0 && isRunning
    {
      birdY := StartY;
      velocity := 0.0;
      pipes := [];
      score := 0;
      isRunning := true;
    }

    /**
     * One firing of the gravity interval: the velocity gains `Gravity`, and
     * the bird moves by the velocity it had before this tick, never above
     * the top edge. Nothing happens while the game is stopped.
     */
    method GravityTick()
      requires Valid()
      modifies this`birdY, this`velocity
      ensures Valid()
      ensures Vertical() == if isRunning then Fall(old(Vertical())) else old(Vertical())
    {
      if !isRunning {
        return;
      }
      var v := velocity;  // the value the interval closure captured
      velocity := v + Gravity;
      birdY := Max0(birdY + v);
    }

    /**
     * `handleJump`: while running, the velocity becomes exactly the jump
     * speed whatever it was; nothing else changes. A no-op when stopped.
     */
    method Jump()
      requires Valid()
      modifies this`velocity
      ensures Valid()
      ensures velocity == if isRunning then JumpSpeed else old(velocity)
    {
      if !isRunning {
        return;
      }
      velocity := JumpSpeed;
    }

    /**
     * One firing of the pipe interval with the random draw `r`: shift and
     * filter, then append a new pipe when the list from before the shift
     * was empty or its last pipe was left of x = 200.
     */
    method PipeTick(r: real)
      requires Valid() && 0.0 <= r < 1.0
      modifies this`pipes
      ensures Valid()
      ensures pipes == if isRunning then NextPipes(old(pipes), r) else old(pipes)
    {
      if !isRunning {
        return;
      }
      var prev := pipes;
      var updated := Advance(prev);
      if |prev| == 0 || prev[|prev| - 1].x < GameWidth - SpawnDistance {
        updated := updated + [NewPipe(r)];
      }
      assert updated == NextPipes(prev, r);
      pipes := updated;
      NextPipesWellFormed(prev, r);
    }

    /**
     * The collision-and-scoring effect. While running it visits every pipe:
     * a hit stops the game, a passing pipe is marked and scores one, and
     * scoring continues in the same pass after a hit. Then the ground test
     * stops the game when the bird reaches it. It never restarts a game, and
     * when stopped it changes nothing.
     */
    method Evaluate()
      requires Valid()
      modifies this`pipes, this`score, this`isRunning
      ensures Valid()
      ensures isRunning ==> old(isRunning)
      ensures !old(isRunning) ==> pipes == old(pipes) && score == old(score)
      ensures old(isRunning) ==>
                pipes == MarkAll(old(pipes))
                && score == old(score) + PassingCount(old(pipes))
                && (isRunning <==> !HitsAny(birdY, old(pipes)) && !Grounded(birdY))
    {
      if !isRunning {
        return;
      }
      var marked, gained, hit := ScorePass(birdY, pipes);
      MarkAllWellFormed(pipes);
      pipes, score, isRunning := marked, score + gained, !hit;
      // The ground test, after the pass.
      if Grounded(birdY) {
        isRunning := false;
      }
    }
  }

  /**
   * The `forEach` of the collision-and-scoring effect over one snapshot of
   * the pipe list: every pipe is visited, a colliding pipe sets `hit`, and a
   * passing pipe is marked in place and adds one to `gained`; scoring goes
   * on after a hit.
   */
  method ScorePass(y: real, pipes: seq<Pipe>) returns (marked: seq<Pipe>, gained: nat, hit: bool)
    ensures marked == MarkAll(pipes)
    ensures gained == PassingCount(pipes)
    ensures hit <==> HitsAny(y, pipes)
  {
    marked, gained, hit := pipes, 0, false;
    var i := 0;
    while i < |pipes|
      invariant 0 <= i <= |pipes| == |marked|
      invariant marked == MarkAll(pipes[..i]) + pipes[i..]
      invariant gained == PassingCount(pipes[..i])
      invariant hit <==> HitsAny(y, pipes[..i])
    {
      ScanStep(y, pipes, i);
      var pipe := marked[i];
      if Hits(y, pipe) {
        hit := true;
      }
      if Passing(pipe) {
        marked := marked[i := pipe.(passed := true)];
        gained := gained + 1;
      }
      i := i + 1;
    }
    assert pipes[..i] == pipes && pipes[i..] == [];
  }

  /** A short round of play that exercises the contracts above. */
  method Round()
  {
    var g := new Game();
    g.score := 7;
    g.StartGame();
    assert g.score == 0 && g.pipes == [];
    g.PipeTick(0.5);
    assert g.pipes == [Pipe(GameWidth, 150.0, 200.0, false)];
    g.GravityTick();
    assert g.birdY == StartY && g.velocity == Gravity;
    g.Jump();
    assert g.velocity == JumpSpeed;
    g.Evaluate();
    assert g.isRunning && g.score == 0;
  }
}
