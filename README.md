# Flappy Bird rules, modelled in Dafny

This project models the game rules of `src/flappy.js`, a Flappy Bird clone
that runs as a browser extension and draws on a canvas. The model covers:

- the three game modes START, PLAYING and GAME_OVER, and the transitions `jump` drives;
- one PLAYING frame of `gameLoop`: gravity and position, the cosmetic rotation,
  a new pipe pair every 120 frames, the backward pipe loop that scrolls,
  removes and scores pipes, the high-score check, and the collision that ends
  the run and saves its score;
- `checkCollisions`, `createPipe`, `resetGame`, `saveScore` with its ten-entry
  history, `updateBirdRotation`, `checkSoundToggleClick`, `toggleSound` and the
  canvas click handler.

Layout:

- `physics.dfy` (module `Physics`): the bird's constants and `Rotation`.
- `pipes.dfy` (module `Pipes`): pipe pairs and `createPipe`'s geometry. It
  also defines `Advanced` and `Gained`, the pipe list and the points after one
  pass of the backward update loop, with what that pass does to each pipe.
- `collision.dfy` (module `Collision`): the collision rule.
- `history.dfy` (module `History`): the score history.
- `rules.dfy` (module `Rules`): the whole game state as one value, with these spec functions:
  - `JumpSpec`: a jump;
  - `FrameSpec`: one `gameLoop` call;
  - `ClickSpec`: one click;
  - `Invariant`: what every reachable state satisfies.
- `game.dfy` (module `Game`): class `FlappyGame`. Its fields are the globals
  of `flappy.js`, and it has one method per modelled function of the source, with
  the PLAYING branch of `gameLoop` split into its steps, each written
  as the source writes it (the pipe loop runs backward and splices in place,
  and `checkCollisions` returns at the first hit). Each method is proved to
  produce the state its specification function gives (a `Rules` function,
  or `NewPair`, `Saved`, `Colliding`, `Rotation`, `Kept` and `Bump`), and the
  public methods keep `Valid()`.

Three ghost fields record things the source does not store but the proofs need:

- the list of `chrome.storage.local.set` calls made so far;
- the pipe pairs spawned since the run began;
- the scores saved since the run began.

Points of flappy.js that are easy to misread:

- Only a GAME_OVER jump calls `resetGame` (`src/flappy.js:530-531`). It puts the bird at
  half the canvas height. The first START→PLAYING jump changes only the mode, so the
  first run starts from the initial `y = 300` and velocity 0
  (`src/flappy.js:20,25,523-524`, `JumpTransitions`).
- `flappy.js` has three modes, a 0.05 rotation factor, a 120-frame spawn interval and a
  140-pixel gap (`src/flappy.js:5-9,61,414,463`).
- Scoring uses the threshold test `x + width < bird.x` on the top pipe
  (`src/flappy.js:478`).
- The score and the high score change one pipe at a time inside the backward loop
  (`src/flappy.js:468-495`). `Bump` models one such pipe exactly, including
  `wasNewHighScore`.
- The bottom pipe has no `counted` field in the source. The model gives it `counted = false`.
  Its `y` is never 0, so it never scores (`BottomNeverScores`).
- START and GAME_OVER share one sound hit box, y ∈ [485, 505] (`src/flappy.js:426-427`). In
  START it covers the "Sound" label drawn at y = 500 (`src/flappy.js:258`). In GAME_OVER it
  covers "Click or SPACE to Play Again" at y = 500 (`src/flappy.js:356`). There the label is
  drawn at y = 530 (`src/flappy.js:361`), outside the box, so a click on the visible label
  restarts the game. The model keeps the box as coded (`ToggleBoxes`).

## Model

| member | source | states |
|---|---|---|
| Physics.Rotation | src/flappy.js:412-416 | the rotation always lies in [-0.5, 0.5]; it is velocity·0.05 when that is within range, and otherwise the nearer bound |
| Physics.RotationMonotone | src/flappy.js:412-416 | a larger velocity never gives a smaller rotation |
| Pipes.TopHeight | src/flappy.js:62 | for any random value in [0, 1), the top pipe's height is an integer in [60, 339] |
| Pipes.NewPair | src/flappy.js:60-78 | `createPipe` yields exactly two pipes: an uncounted top pipe at y = 0 whose height is `TopHeight`, and a bottom pipe starting 140 below it and reaching the canvas bottom; both are 70 wide and at x = canvas width |
| Pipes.NewPairPaired | src/flappy.js:60-78 | a new pair satisfies the pair invariant `Paired` |
| Pipes.NewPairUncounted | src/flappy.js:64-70 | a new pair holds exactly one top pipe that can still score |
| Pipes.NewPairSurvivesFirstShift | src/flappy.js:469-475 | on a canvas of positive width, both new pipes survive their first scroll |
| Pipes.NewPairExample | src/flappy.js:60-78 | with random value 1/7 on a 400×600 canvas, the top height is 100 and the bottom pipe is at y = 240 with height 360 |
| Pipes.Kept | src/flappy.js:469-479 | defines what one iteration of the loop leaves of a pipe: nothing when it has scrolled off the canvas, otherwise the shifted pipe, marked counted when it scores; its properties are `PairKept`, `AdvancedAt` and `SurvivorsMoved` |
| Pipes.Advanced | src/flappy.js:468-475 | one pass of the update loop never makes the pipe list longer |
| Pipes.Gained | src/flappy.js:478-480 | one pass awards at most one point per pipe |
| Pipes.AdvancedAt | src/flappy.js:468-495 | the pass over a suffix from index i is the result for pipe i followed by the pass over the rest (the backward loop's step) |
| Pipes.LoopStep | src/flappy.js:469-479 | updating pipe i in place, inside the partly processed list, gives the list processed from i on |
| Pipes.SurvivorsOrdered | src/flappy.js:468-475 | the surviving pipes keep their original relative order |
| Pipes.SurvivorsExactly | src/flappy.js:469-475 | a pipe survives the pass exactly when its right edge is still at or right of x = 0 after the 3.2 scroll |
| Pipes.SurvivorsMoved | src/flappy.js:469-479 | the k-th pipe after the pass is the k-th survivor moved left by 3.2, marked counted exactly when it scores |
| Pipes.AdvancedExactly | src/flappy.js:468-495 | the pass keeps exactly the pipes still on screen after scrolling, in order; each is shifted by 3.2 and marked counted exactly when it is an uncounted top pipe now left of the bird |
| Pipes.AdvancedOnScreen | src/flappy.js:472-475 | after the pass no pipe lies wholly left of the canvas |
| Pipes.AdvancedConcat | src/flappy.js:468-495 | the pass acts pipe by pipe: applied to a concatenation it gives the concatenation of the results and the sum of the points |
| Pipes.UncountedConcat | src/flappy.js:478 | the number of uncounted top pipes adds up over a concatenation |
| Pipes.ScoreConsumesUncounted | src/flappy.js:478-480 | the points of a pass plus the uncounted top pipes left afterwards never exceed the uncounted top pipes before it, so each top pipe scores at most once |
| Pipes.GainedIsNewlyCounted | src/flappy.js:469-480 | the points of a pass equal the surviving uncounted top pipes that the pass marks counted |
| Pipes.PairedConcat | src/flappy.js:64-77 | appending a list of pairs to a list of pairs gives a list of pairs |
| Pipes.PairKept | src/flappy.js:469-475 | the two pipes of a pair leave the canvas on the same frame and otherwise scroll together |
| Pipes.AdvancedTwo | src/flappy.js:468-475 | the pass over a list of at least two pipes splits into its first two pipes and the rest |
| Pipes.PairedCons | src/flappy.js:64-77 | a pair in front of a list of pairs gives a list of pairs |
| Pipes.PairedAdvanced | src/flappy.js:468-475 | the update loop keeps the list made of aligned top/bottom pairs |
| Pipes.BottomNeverScores | src/flappy.js:72-77 | a bottom pipe starts at y ≥ 200 and never scores |
| Collision.Colliding | src/flappy.js:383-410 | defines the collision test as ground, ceiling or a strict overlap with some pipe; `CheckCollisions` is proved equal to it |
| Collision.CollidingConcat | src/flappy.js:397-407 | colliding with a pipe list is colliding with either part of it, so neither the order in which pipes are tested nor where the loop returns changes the result |
| Collision.TouchingIsNotOverlap | src/flappy.js:397-403 | boxes that only share an edge do not collide (the tests are strict) |
| Collision.GapIsClear | src/flappy.js:397-403 | a bird whose box lies within the gap of a pair hits neither pipe, and the 140 gap is taller than the 24 bird |
| Collision.BoundaryExamples | src/flappy.js:385-394 | the strict boundaries of the band: y = -0.5 collides while y = 0 does not; a bird whose bottom edge is one unit past the ground line `height - 10` collides, while one resting exactly on it does not (canvas at least 34 high, no pipes) |
| History.Take | src/flappy.js:108 | `slice(0, n)`: its length is the smaller of n and the list length, and it is a prefix of the list |
| History.Saved | src/flappy.js:101-108 | after a save the history has min(old length + 1, 10) entries; the new entry is first; the rest is the old history's prefix |
| History.TakeOfPrepended | src/flappy.js:102-108 | cutting to n before or after putting an entry in front gives the same result |
| History.SavedAllMostRecentFirst | src/flappy.js:101-108 | after any series of saves starting from a history of at most ten entries, the history holds the last ten entries, newest first, including the surviving old ones |
| Rules.Bump | src/flappy.js:479-493 | one point: the score rises by one and the high score becomes the larger of the two; from score ≤ high score the flag is set exactly when it was already set or the old high score is beaten |
| Rules.BumpTimes | src/flappy.js:468-495 | n points raise the score by exactly n and never lower the high score |
| Rules.BumpTimesFromValid | src/flappy.js:478-493 | from score ≤ high score, n points raise the score by n; the high score becomes the larger of the two; the new-high-score flag is set exactly when the old high score is beaten |
| Rules.ResetState | src/flappy.js:81-90 | defines the state after `resetGame`; its effects are stated in `JumpTransitions` |
| Rules.JumpSpec | src/flappy.js:522-533 | every jump lands in PLAYING and keeps the high score, history, sound setting and storage |
| Rules.JumpTransitions | src/flappy.js:522-533 | every jump leads to PLAYING and keeps the high score, history, sound setting and storage. START changes only the mode. PLAYING sets the velocity to -8.5 and nothing else, so a second flap changes nothing more. GAME_OVER resets the run |
| Rules.JumpPreservesInvariant | src/flappy.js:522-533 | a jump keeps the state invariant |
| Rules.Fall | src/flappy.js:457-460 | defines the bird's motion in one frame; stated in `PlayingFrameMotion` |
| Rules.SpawnPipes | src/flappy.js:463-465 | defines the spawn step; stated in `SpawnPipesKeeps` and `PlayingFramePipesAndScore` |
| Rules.MovePipes | src/flappy.js:468-495 | defines the pipe loop's effect on the state; stated in `MovePipesKeeps` |
| Rules.EndOnCollision | src/flappy.js:503-506 | defines the end of a run; stated in `PlayingFrameGameOver` and `EndOnCollisionKeeps` |
| Rules.PlayingFrame | src/flappy.js:455-509 | a PLAYING frame advances the counter by one, either keeps the mode or ends in GAME_OVER, never lowers the score or the high score, and keeps the sound setting |
| Rules.FrameSpec | src/flappy.js:448-519 | a `gameLoop` call changes nothing outside PLAYING, never enters or leaves START, and never lowers the frame counter or the high score |
| Rules.PlayingFrameMotion | src/flappy.js:457-460 | in a PLAYING frame, velocity gains 0.5 before y moves by the new velocity; rotation stays within ±0.5; the frame counter rises by one |
| Rules.PlayingFramePipesAndScore | src/flappy.js:463-495 | a PLAYING frame adds a pair exactly when the counter is a multiple of 120 and advances the list once. The score rises by the points gained. The high score becomes the larger of old high and new score. The flag is set exactly when the old high score is beaten |
| Rules.PlayingFrameGameOver | src/flappy.js:503-506 | a PLAYING frame ends in GAME_OVER exactly when the bird at its new position collides with the moved pipes. In that case the score is put at the head of the history and both scores are stored, once; otherwise mode, history and storage are unchanged |
| Rules.TopOutExample | src/flappy.js:391-394 | a bird at y = 0 moving up at -1 is at y = -0.5 after the frame, and the run is over |
| Rules.SpawnPipesKeeps | src/flappy.js:463-465 | spawning a pair keeps the pair invariant and the score accounting |
| Rules.MovePipesKeeps | src/flappy.js:468-495 | the update loop raises the score by the points gained, makes the high score follow it, and restores the full invariant, bringing every pipe on screen |
| Rules.EndOnCollisionKeeps | src/flappy.js:503-506 | ending the run keeps the invariant, with exactly one save recorded |
| Rules.FramePreservesInvariant | src/flappy.js:448-519 | every `gameLoop` frame keeps the invariant: 0 ≤ score ≤ high score; at most 10 history entries; the pipes form on-screen pairs; score plus scoreable top pipes ≤ pairs spawned; one save in GAME_OVER, none otherwise |
| Rules.ToggleHit | src/flappy.js:424-437 | defines the sound box test for each mode; its boxes are stated in `ToggleBoxes` |
| Rules.ClickSpec | src/flappy.js:543-552 | a click keeps the high score and history, leaves the mode unchanged or in PLAYING, and changes the sound setting only without changing the mode |
| Rules.ToggleSound | src/flappy.js:442-445 | defines the sound toggle; stated in `ClickToggles` |
| Rules.ClickToggles | src/flappy.js:543-552 | a click flips the sound setting exactly when it hits the label box. A hit changes only the setting and stores it, and a second identical click restores it. Any other click is a jump |
| Rules.ToggleBoxes | src/flappy.js:424-436 | the label box: 80×20 centred at x = width/2 over y ∈ [485, 505] in START and GAME_OVER; x ∈ [width-40, width-10], y ∈ [10, 30] in PLAYING |
| Rules.ClickPreservesInvariant | src/flappy.js:543-552 | a click keeps the invariant |
| Rules.Initial | src/flappy.js:11-57 | defines the startup state after the storage load; stated in `InitialInvariant` |
| Rules.InitialInvariant | src/flappy.js:11-57 | the startup state, once stored values of the game's own kind are loaded, satisfies the invariant, in START with score 0 |
| Game.FlappyGame.constructor | src/flappy.js:11-57 | the globals start in START with the bird at y = 300 and no pipes. High score, history and sound setting come from storage, defaulting to 0, [] and on |
| Game.FlappyGame.CreatePipe | src/flappy.js:60-78 | appends exactly `NewPair` to the pipe list |
| Game.FlappyGame.ResetGame | src/flappy.js:81-90 | sets the run fields to their fresh values and PLAYING, and changes nothing else |
| Game.FlappyGame.SaveScore | src/flappy.js:101-114 | history becomes `Saved(old history, entry)`, and one write of the high score and the new history is recorded |
| Game.FlappyGame.CheckCollisions | src/flappy.js:383-410 | returns true exactly when the bird hits the ground strip, is above the top edge, or overlaps some pipe |
| Game.FlappyGame.UpdateBirdRotation | src/flappy.js:412-416 | rotation becomes `Rotation(velocity)` |
| Game.FlappyGame.UpdatePipe | src/flappy.js:469-494 | one loop iteration: pipe i is replaced by its kept result, and the score tally takes one `Bump` exactly when it scores |
| Game.FlappyGame.UpdatePipes | src/flappy.js:468-495 | the backward loop leaves `Advanced(old pipes)` and applies `Gained(old pipes)` bumps to the tally |
| Game.FlappyGame.Fall | src/flappy.js:457-460 | velocity, then y, then rotation, as `Rules.Fall` |
| Game.FlappyGame.SpawnPipes | src/flappy.js:463-465 | calls `createPipe` exactly on frames whose counter is a multiple of 120 |
| Game.FlappyGame.EndOnCollision | src/flappy.js:503-506 | switches to GAME_OVER and saves the score exactly on a collision |
| Game.FlappyGame.PlayingStep | src/flappy.js:455-509 | the PLAYING branch produces `PlayingFrame` of the old state |
| Game.FlappyGame.GameLoop | src/flappy.js:448-519 | one frame produces `FrameSpec` of the old state: a change only in PLAYING. It keeps `Valid()` |
| Game.FlappyGame.Jump | src/flappy.js:522-533 | produces `JumpSpec` of the old state and keeps `Valid()` |
| Game.FlappyGame.ToggleSound | src/flappy.js:442-445 | flips the setting and records one write of the new value |
| Game.FlappyGame.CheckSoundToggleClick | src/flappy.js:419-439 | returns true exactly on `ToggleHit` for the current mode, and then toggles the sound; otherwise nothing changes |
| Game.FlappyGame.Click | src/flappy.js:543-552 | produces `ClickSpec` of the old state and keeps `Valid()` |

## Left out

- Drawing (`drawBird`, `drawPipes`, `drawBackground`, `drawCloud`, `drawStartScreen`, `drawBirdPreview`, `drawGameOverScreen`, `drawGameUI`): it only paints the canvas and changes no game state.
- Sound (`playSound` and the `Audio` objects): playback is browser I/O. It reads `soundsEnabled` and changes nothing else.
- `chrome.storage.local`: each `set` becomes a ghost write log. The asynchronous `get` is modelled as already completed when the constructor runs, so a frame or click that happens before it completes is not modelled.
- `Math.random()` and `new Date().toLocaleDateString()` become parameters: a real in [0, 1) and an opaque string.
- `requestAnimationFrame`, the `keydown` and `click` listeners, and `getBoundingClientRect`: the event loop becomes explicit method calls. The canvas-relative click coordinates are the parameters of `Click`.
- Coordinates are exact reals, so JavaScript's IEEE-754 rounding (for example of the repeated `- 3.2`) is not modelled.
- Game.FlappyGame.constructor: requires `GoodLoaded`, meaning a stored high score ≥ 0 and at most ten history entries, as this game writes them. Values of another type that a different writer stored under the same keys are outside the model. So are falsy values that `||` replaces, other than absent ones.
- Pipes.Gained: the per-pipe `point` and `highscore` sound cues are not modelled, only the score changes they go with.
