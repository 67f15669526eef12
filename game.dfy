/**
 * The game as the source holds it: mutable globals and the `bird` and
 * `pipes` objects, gathered in one object whose methods are the modelled
 * functions of flappy.js. Each method is proved to change the state as its
 * specification function says, and the public ones keep `Valid()`.
 */
module Game {
  import opened Wrappers
  import opened Physics
  import opened Pipes
  import opened Collision
  import opened History
  import opened Rules

  class FlappyGame {
    const canvas: Canvas

    var mode: Mode
    var birdY: real
    var velocity: real
    var rotation: real
    var pipes: seq<Pipe>
    var frameCount: nat
    var currentScore: int
    var highScore: int
    var newHighScoreAchieved: bool
    var scoresHistory: seq<ScoreEntry>
    var soundsEnabled: bool

    /** The storage writes so far, oldest first. */
    ghost var writes: seq<StorageWrite>
    /** Pipe pairs created and scores saved since the current run began. */
    ghost var pairsSpawned: nat
    ghost var runSaves: nat

    ghost function Snapshot(): State
      reads this
    {
      State(mode, birdY, velocity, rotation, pipes, frameCount, currentScore, highScore,
            newHighScoreAchieved, scoresHistory, soundsEnabled, writes, pairsSpawned, runSaves)
    }

    ghost predicate Valid()
      reads this
    {
      canvas.width > 0.0 && canvas.height > 0.0 && Invariant(Snapshot(), canvas)
    }

    /** The globals' initial values, with the startup storage load already applied. */
    constructor (width: int, height: int, stored: Loaded)
      requires width > 0 && height > 0
      requires GoodLoaded(stored)
      ensures Valid()
      ensures canvas == Canvas(width as real, height as real)
      ensures Snapshot() == Initial(stored)
    {
      canvas := Canvas(width as real, height as real);
      mode := Start;
      birdY := BirdStartY;
      velocity := 0.0;
      rotation := 0.0;
      pipes := [];
      frameCount := 0;
      currentScore := 0;
      highScore := stored.highScore.GetOr(0);
      newHighScoreAchieved := false;
      scoresHistory := stored.scoresHistory.GetOr([]);
      soundsEnabled := stored.soundsEnabled.GetOr(true);
      writes := [];
      pairsSpawned := 0;
      runSaves := 0;
      new;
      InitialInvariant(stored, canvas);
    }

    /** `createPipe`: append a top and a bottom pipe at the right edge. */
    method CreatePipe(random: real)
      requires 0.0 <= random < 1.0
      modifies this`pipes, this`pairsSpawned
      ensures pipes == old(pipes) + NewPair(random, canvas)
      ensures pairsSpawned == old(pairsSpawned) + 1
    {
      var topHeight := TopHeight(random);
      pipes := pipes + [Pipe(canvas.width, 0.0, PipeWidth, topHeight as real, false)];
      pipes := pipes + [Pipe(canvas.width, topHeight as real + Gap, PipeWidth,
                             canvas.height - topHeight as real - Gap, false)];
      pairsSpawned := pairsSpawned + 1;
    }

    /** `resetGame`. */
    method ResetGame()
      modifies this
      ensures Snapshot() == ResetState(old(Snapshot()), canvas)
    {
      birdY := canvas.height / 2.0;
      velocity := 0.0;
      rotation := 0.0;
      pipes := [];
      currentScore := 0;
      frameCount := 0;
      mode := Playing;
      newHighScoreAchieved := false;
      pairsSpawned := 0;
      runSaves := 0;
    }

    /** `saveScore`: put the run at the front of the history, keep ten entries, and store both scores. */
    method SaveScore(score: int, timestamp: string)
      modifies this`scoresHistory, this`writes, this`runSaves
      ensures scoresHistory == Saved(old(scoresHistory), ScoreEntry(score, timestamp))
      ensures writes == old(writes) + [ScoresWrite(highScore, scoresHistory)]
      ensures runSaves == old(runSaves) + 1
    {
      scoresHistory := [ScoreEntry(score, timestamp)] + scoresHistory;
      scoresHistory := Take(scoresHistory, MaxHistory);
      writes := writes + [ScoresWrite(highScore, scoresHistory)];
      runSaves := runSaves + 1;
    }

    /** `checkCollisions`: ground, ceiling, then each pipe in order, returning at the first hit. */
    method CheckCollisions() returns (hit: bool)
      ensures hit == Colliding(birdY, pipes, canvas)
    {
      if birdY + BirdHeight > canvas.height - GroundHeight {
        return true;
      }
      if birdY < 0.0 {
        return true;
      }
      for i := 0 to |pipes|
        invariant forall k :: 0 <= k < i ==> !Overlaps(birdY, pipes[k])
      {
        var pipe := pipes[i];
        if && BirdX < pipe.x + pipe.width
           && BirdX + BirdWidth > pipe.x
           && birdY < pipe.y + pipe.height
           && birdY + BirdHeight > pipe.y
        {
          return true;
        }
      }
      return false;
    }

    /** `updateBirdRotation`. */
    method UpdateBirdRotation()
      modifies this`rotation
      ensures rotation == Rotation(velocity)
    {
      rotation := velocity * RotationFactor;
      rotation := MaxReal(-MaxRotation, MinReal(MaxRotation, rotation));
    }

    /**
     * One iteration of the backward pipe loop of `gameLoop`: shift pipe `i`,
     * splice it out when it has left the canvas, otherwise score it when the
     * bird has just passed it.
     */
    method UpdatePipe(i: nat)
      requires i < |pipes|
      modifies this`pipes, this`currentScore, this`highScore, this`newHighScoreAchieved
      ensures pipes == old(pipes[..i]) + Kept(old(pipes[i])) + old(pipes[i + 1..])
      ensures Tally(currentScore, highScore, newHighScoreAchieved)
           == var t := Tally(old(currentScore), old(highScore), old(newHighScoreAchieved));
              if Scores(old(pipes[i])) then Bump(t) else t
    {
      pipes := pipes[i := pipes[i].(x := pipes[i].x - PipeSpeed)];
      if pipes[i].x + pipes[i].width < 0.0 {
        pipes := pipes[..i] + pipes[i + 1..];
        return;
      }
      if pipes[i].y == 0.0 && !pipes[i].counted && pipes[i].x + pipes[i].width < BirdX {
        pipes := pipes[i := pipes[i].(counted := true)];
        currentScore := currentScore + 1;
        if currentScore > highScore {
          var wasNewHighScore := highScore == 0 || currentScore - 1 == highScore;
          highScore := currentScore;
          if wasNewHighScore {
            newHighScoreAchieved := true;
          }
        }
      }
    }

    /** The backward loop of `gameLoop` over the pipe list. */
    method UpdatePipes()
      modifies this`pipes, this`currentScore, this`highScore, this`newHighScoreAchieved
      ensures pipes == Advanced(old(pipes))
      ensures Tally(currentScore, highScore, newHighScoreAchieved)
           == BumpTimes(Tally(old(currentScore), old(highScore), old(newHighScoreAchieved)), Gained(old(pipes)))
      ensures Snapshot() == MovePipes(old(Snapshot()))
    {
      ghost var ps0 := pipes;
      ghost var t0 := Tally(currentScore, highScore, newHighScoreAchieved);
      for i := |pipes| downto 0
        invariant pipes == ps0[..i] + Advanced(ps0[i..])
        invariant Tally(currentScore, highScore, newHighScoreAchieved) == BumpTimes(t0, Gained(ps0[i..]))
      {
        LoopStep(ps0, i, pipes);
        AdvancedAt(ps0, i);
        UpdatePipe(i);
      }
    }

    /** Lines 457-460 of `gameLoop`: gravity, position, rotation. */
    method Fall()
      modifies this`velocity, this`birdY, this`rotation
      ensures Snapshot() == Rules.Fall(old(Snapshot()))
    {
      velocity := velocity + Gravity;
      birdY := birdY + velocity;
      UpdateBirdRotation();
    }

    /** Lines 463-465 of `gameLoop`: a new pair every 120 frames. */
    method SpawnPipes(random: real)
      requires 0.0 <= random < 1.0
      modifies this`pipes, this`pairsSpawned
      ensures Snapshot() == Rules.SpawnPipes(old(Snapshot()), random, canvas)
    {
      if frameCount % SpawnInterval == 0 {
        CreatePipe(random);
      }
    }

    /** Lines 503-506 of `gameLoop`: a collision ends the run and saves its score. */
    method EndOnCollision(timestamp: string)
      modifies this`mode, this`scoresHistory, this`writes, this`runSaves
      ensures Snapshot() == Rules.EndOnCollision(old(Snapshot()), timestamp, canvas)
    {
      var hit := CheckCollisions();
      if hit {
        mode := GameOver;
        SaveScore(currentScore, timestamp);
      }
    }

    /** The PLAYING branch of `gameLoop`, without the drawing. */
    method PlayingStep(random: real, timestamp: string)
      requires mode == Playing
      requires 0.0 <= random < 1.0
      modifies this
      ensures Snapshot() == PlayingFrame(old(Snapshot()), random, timestamp, canvas)
    {
      Fall();
      SpawnPipes(random);
      UpdatePipes();
      EndOnCollision(timestamp);
      frameCount := frameCount + 1;
    }

    /** One call of `gameLoop`; `random` stands for `Math.random()` and `timestamp` for the date. */
    method GameLoop(random: real, timestamp: string)
      requires Valid()
      requires 0.0 <= random < 1.0
      modifies this
      ensures Valid()
      ensures Snapshot() == FrameSpec(old(Snapshot()), random, timestamp, canvas)
    {
      FramePreservesInvariant(Snapshot(), random, timestamp, canvas);
      if mode == Playing {
        PlayingStep(random, timestamp);
      }
    }

    /** `jump`. */
    method Jump()
      requires Valid()
      modifies this
      ensures Valid()
      ensures Snapshot() == JumpSpec(old(Snapshot()), canvas)
    {
      JumpPreservesInvariant(Snapshot(), canvas);
      if mode == Start {
        mode := Playing;
      } else if mode == Playing {
        velocity := Lift;
      } else if mode == GameOver {
        ResetGame();
      }
    }

    /** `toggleSound`. */
    method ToggleSound()
      modifies this`soundsEnabled, this`writes
      ensures soundsEnabled == !old(soundsEnabled)
      ensures writes == old(writes) + [SoundWrite(soundsEnabled)]
    {
      soundsEnabled := !soundsEnabled;
      writes := writes + [SoundWrite(soundsEnabled)];
    }

    /** `checkSoundToggleClick`: toggle sound when the click is on the sound label. */
    method CheckSoundToggleClick(x: real, y: real) returns (hit: bool)
      modifies this`soundsEnabled, this`writes
      ensures hit == ToggleHit(mode, x, y, canvas)
      ensures Snapshot() == if hit then Rules.ToggleSound(old(Snapshot())) else old(Snapshot())
    {
      var soundTextWidth := SoundTextWidth;
      var centerX := canvas.width / 2.0;
      if mode == Start || mode == GameOver {
        if x >= centerX - soundTextWidth / 2.0 && x <= centerX + soundTextWidth / 2.0 && y >= 485.0 && y <= 505.0 {
          ToggleSound();
          return true;
        }
      } else if mode == Playing {
        if x >= canvas.width - 40.0 && x <= canvas.width - 10.0 && y >= 10.0 && y <= 30.0 {
          ToggleSound();
          return true;
        }
      }
      return false;
    }

    /** The canvas click handler: the sound label takes the click, otherwise it is a jump. */
    method Click(x: real, y: real)
      requires Valid()
      modifies this
      ensures Valid()
      ensures Snapshot() == ClickSpec(old(Snapshot()), x, y, canvas)
    {
      ClickPreservesInvariant(Snapshot(), x, y, canvas);
      var toggled := CheckSoundToggleClick(x, y);
      if !toggled {
        Jump();
      }
    }
  }
}
