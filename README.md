# Flappy Bird simulation, modelled in Dafny

This project models the game simulation inside the `App` component of a small
browser Flappy Bird (`src/App.jsx`). The component keeps one state record — the
bird's height `birdY`, its vertical `velocity`, an ordered list of pipe pairs
(`x`, `top`, `bottom`, `passed`), the `score` and the run flag `isRunning` — and
changes it through five transitions: starting an attempt, a gravity tick, a
jump, a pipe tick (shift, drop, spawn) and the collision-and-scoring
evaluation that may end the attempt.

Files and modules:

- `Rules.dfy` (`Rules`): the constants of the component, the `Pipe` entity, one
  gravity tick as a function with lemmas about many ticks, and the per-pipe
  collision, ground and scoring tests.
- `PipeStream.dfy` (`PipeStream`): the pipe tick as functions on the pipe list
  (the `map`, the `filter`, the spawn test and the spawned pipe), the
  well-formedness invariant of the list, and lemmas about removal, order and
  spawning.
- `Scoring.dfy` (`Scoring`): the scoring pass as functions (the marked list,
  the number of passing pipes, the collision verdict) and lemmas: each pipe
  scores once, the score equals the number of flags flipped, and the order of
  the pipes does not matter.
- `FlappyBird.dfy` (`FlappyBird`): the `Game` class whose fields are the five
  hook variables, with one method per transition, the scoring loop
  `ScorePass`, and a short client `Round`.

Arithmetic: pipe `x` is an `int` (it starts at 400 and moves in steps of 3);
`birdY`, `velocity`, `top` and `bottom` are `real`, since gravity is 0.4 and the
gap position is a random fraction of 300. The random draw of `Math.random()` is
the parameter `r` of the pipe tick, with `0 <= r < 1`.

`Game.Valid()` is the invariant every transition keeps: the bird is never above
the top edge (`birdY >= 0`), every pipe has `0 <= top < 300`,
`top + 150 + bottom = 500` and `x <= 400`, and the pipes are strictly ordered
by `x`.

Two details of the code are easy to misread, and the model keeps both: the
spawn test looks at the last pipe of the list from before the shift (not at the
shifted list), and the gravity tick moves the bird by the velocity from before
that tick's increment (the interval closure captured it, and the effect is
re-created whenever the velocity changes).

## Model

| member | source | states |
|---|---|---|
| `FlappyBird.Game.constructor` | src/App.jsx:13-17 | the initial state: bird at 250, velocity 0, no pipes, score 0, not running; the invariant holds |
| `FlappyBird.Game.StartGame` | src/App.jsx:22-29 | from any state: bird at 250, velocity 0, no pipes, score 0, running |
| `FlappyBird.Game.GravityTick` | src/App.jsx:32-41 | while running the bird's motion becomes `Fall` of the old one (velocity + 0.4, height moved by the pre-tick velocity and clamped at 0); stopped: nothing changes; only `birdY` and `velocity` may change; `birdY >= 0` is kept |
| `FlappyBird.Game.Jump` | src/App.jsx:72-75 | while running the velocity becomes exactly -6 whatever it was; stopped: unchanged; nothing but `velocity` may change |
| `FlappyBird.Game.PipeTick` | src/App.jsx:44-69 | while running the pipe list becomes `NextPipes(old list, r)`; stopped: unchanged; only `pipes` may change; the list invariant (geometry, bounds, order) is kept |
| `FlappyBird.Game.Evaluate` | src/App.jsx:91-115 | stopped: nothing changes; running: every passing pipe is marked, the score grows by the number of passing pipes, and the game keeps running iff no pipe is hit and the bird is above the ground; it never sets the game running |
| `FlappyBird.ScorePass` | src/App.jsx:94-109 | the loop over the pipes returns the marked list, the number of pipes scored and whether any pipe was hit, scoring continuing after a hit |
| `Rules.Fall` | src/App.jsx:36-37 | definition, no contract: one gravity tick, velocity + 0.4 and height moved by the pre-tick velocity, clamped at 0 |
| `Rules.Falls` | src/App.jsx:35-41 | definition, no contract: n gravity ticks in a row with no jump |
| `Rules.OverlapsBird` | src/App.jsx:97-98 | definition, no contract: the pipe's columns overlap the bird's columns 50..80 (both strict) |
| `Rules.OutsideGap` | src/App.jsx:99 | definition, no contract: the bird is above `top` or its bottom edge is below 500 - `bottom` |
| `Rules.Hits` | src/App.jsx:96-99 | definition, no contract: the collision test, overlap and outside the gap |
| `Rules.Grounded` | src/App.jsx:112 | definition, no contract: the ground test `birdY >= 470` |
| `Rules.Passing` | src/App.jsx:105 | definition, no contract: not yet scored and trailing edge strictly left of 50 |
| `Rules.MarkPassed` | src/App.jsx:105-106 | definition, no contract: one pipe after the scoring step |
| `PipeStream.Shift` | src/App.jsx:50 | definition, no contract: one pipe moved left by 3 |
| `PipeStream.OnScreen` | src/App.jsx:51 | definition, no contract: the filter test `x + 60 > 0` |
| `PipeStream.Advance` | src/App.jsx:49-51 | definition, no contract: map then filter, the pipes that survive one tick |
| `PipeStream.ShouldSpawn` | src/App.jsx:54 | definition, no contract: the spawn test, made on the unshifted list |
| `PipeStream.NextPipes` | src/App.jsx:48-65 | definition, no contract: the whole pipe tick, survivors then the spawned pipe when the test holds |
| `Scoring.HitsAny` | src/App.jsx:94-102 | definition, no contract: some pipe of the list collides with the bird |
| `Scoring.PassingCount` | src/App.jsx:104-108 | definition, no contract: the number of pipes the pass scores |
| `Scoring.Flips` | src/App.jsx:106-107 | definition, no contract: the number of `passed` flags turned from false to true between two lists |
| `Rules.Max0` | src/App.jsx:37 | the clamp is at least 0 and at least its argument, and equals one of them |
| `Rules.FallsVelocity` | src/App.jsx:36 | after n gravity ticks without a jump the velocity has grown by exactly n * 0.4 |
| `Rules.FallsStayBelowTop` | src/App.jsx:37 | from a height >= 0 the bird stays at height >= 0 after any number of ticks |
| `Rules.FreeFall` | src/App.jsx:35-38 | with non-negative velocity the height after n ticks is y + n*v + 0.4*n*(n-1)/2, the closed form of the one-tick lag |
| `Rules.HitsIffOutsideGap` | src/App.jsx:96-99 | for a generated pipe, a hit happens iff the columns overlap and the bird is not inside the 150-high gap starting at `top` (both directions) |
| `Rules.PassingBoundary` | src/App.jsx:105 | an unscored pipe scores iff x <= -11: x = -10 (trailing edge exactly at 50) does not count, x = -11 does |
| `Rules.MarkPassedFlipsOnce` | src/App.jsx:105-106 | scoring a pipe keeps x, top and bottom, sets `passed` iff it was set or the trailing edge is left of 50, changes the pipe iff it was passing, and leaves it not passing |
| `Rules.CollisionScenario` | src/App.jsx:96-102 | a bird at 250 against a pipe at x = 50 with top 100 and bottom 250 is a hit |
| `PipeStream.ShiftAll` | src/App.jsx:49-50 | the map keeps length and moves each pipe's x by exactly -3, keeping top, bottom and passed |
| `PipeStream.KeepOnScreen` | src/App.jsx:51 | the filter keeps exactly the pipes whose trailing edge is right of 0, and nothing else |
| `PipeStream.NewPipe` | src/App.jsx:55-61 | the spawned pipe is at x = 400, not passed, with top = r * 300 exactly, with top + 150 + bottom = 500, and for a draw in [0,1) has 0 <= top < 300 |
| `PipeStream.KeepOnScreenAppend` | src/App.jsx:49-51 | the filter distributes over concatenation, so survivors keep their relative order |
| `PipeStream.AdvanceDropsIff` | src/App.jsx:49-51 | a pipe survives the tick iff its shifted trailing edge x - 3 + 60 is right of 0 |
| `PipeStream.AdvanceOrigin` | src/App.jsx:49-51 | every surviving pipe is an earlier pipe moved left by 3 with its other fields unchanged |
| `PipeStream.KeepAllOnScreen` | src/App.jsx:51 | when every pipe is on screen the filter removes none |
| `PipeStream.KeepDropsPrefix` | src/App.jsx:51 | on an ordered list the filter removes a prefix of off-screen pipes: pipes leave only at the left edge |
| `PipeStream.SpawnIff` | src/App.jsx:54-62 | the tick appends one pipe iff the unshifted list was empty or its last pipe had x < 200; the new pipe is last, after the survivors in order |
| `PipeStream.GrowsByAtMostOne` | src/App.jsx:48-65 | a tick grows the list by at most one pipe |
| `PipeStream.ShiftAllWellFormed` | src/App.jsx:50 | shifting keeps the list invariant and puts every pipe strictly left of x = 400 |
| `PipeStream.WellFormedSuffix` | src/App.jsx:51 | removing a prefix keeps the list invariant |
| `PipeStream.WellFormedAppend` | src/App.jsx:56-61 | appending a generated pipe right of all others keeps the list invariant |
| `PipeStream.NextPipesWellFormed` | src/App.jsx:48-65 | a tick with a draw in [0,1) keeps the list invariant (geometry, x <= 400, strict order) |
| `Scoring.PassingCountAppend` | src/App.jsx:107 | the number of scored pipes adds up over concatenation |
| `Scoring.FlipsArePassing` | src/App.jsx:104-108 | the score a pass adds equals the number of `passed` flags it turns from false to true |
| `Scoring.MarkAll` | src/App.jsx:106 | the marked list has the same length and holds each pipe scored in place |
| `Scoring.MarkAllSettles` | src/App.jsx:105-107 | a pass never clears a flag, leaves no pipe passing, and a second pass changes nothing: each pipe is scored at most once |
| `Scoring.MarkAllWellFormed` | src/App.jsx:106 | marking keeps the list invariant |
| `Scoring.OrderIrrelevant` | src/App.jsx:94-109 | any permutation of the pipe list gives the same hit verdict and the same score |
| `Scoring.PassingCountPermutation` | src/App.jsx:104-108 | the number of scored pipes depends only on the multiset of pipes |
| `Scoring.HitsAnyBySet` | src/App.jsx:96-102 | a hit in one list is a hit in any list with the same pipes |

## Left out

- Rendering, CSS classes, the game-over overlay and the footer (src/App.jsx:117-195): presentation with no decisions.
- The two `setInterval` timers, their 20 ms period and `clearInterval` cleanup: each tick is a method the caller invokes; how the two timers interleave with each other and with the evaluation is scheduling, not modelled.
- The keyboard listener, `preventDefault` and the focus call: input plumbing; both the click and the space key route to `Jump`.
- `Math.random()`: a foreign call; its draw is the parameter `r` of `PipeTick` and `NewPipe`.
- IEEE-754 rounding: `birdY`, `velocity`, `top` and `bottom` are exact reals, so 0.4 and `r * 300` are exact.
- React's asynchronous, batched setters: each effect body is one atomic step whose updates land together at its end.
- The in-place mutation of `pipe.passed` on the stored pipe objects, without a setter: `Evaluate` writes the marked list back into `pipes`, which has the same effect on every later step; aliasing of pipe objects is not modelled.
