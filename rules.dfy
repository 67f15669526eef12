/**
 * The game rules of flappy.js as functions on one record of the global state:
 * the three-mode machine driven by `jump`, one PLAYING frame of `gameLoop`,
 * the sound-toggle click, and the invariant all of them keep.
 */
module Rules {
  import opened Wrappers
  import opened Physics
  import opened Pipes
  import opened Collision
  import opened History

  datatype Mode = Start | Playing | GameOver

  /** One `chrome.storage.local.set` call. */
  datatype StorageWrite =
    | ScoresWrite(highScore: int, history: seq<ScoreEntry>)
    | SoundWrite(enabled: bool)

  /** What `chrome.storage.local.get` delivered at startup; a missing key is `None`. */
  datatype Loaded = Loaded(highScore: Option<int>, scoresHistory: Option<seq<ScoreEntry>>, soundsEnabled: Option<bool>)

  /**
   * The global state of the game. The last three fields are bookkeeping the
   * source does not hold: the storage writes so far, and the pipe pairs
   * spawned and the scores saved since the current run began.
   */
  datatype State = State(
    mode: Mode,
    birdY: real,
    velocity: real,
    rotation: real,
    pipes: seq<Pipe>,
    frameCount: nat,
    currentScore: int,
    highScore: int,
    newHighScoreAchieved: bool,
    scoresHistory: seq<ScoreEntry>,
    soundsEnabled: bool,
    writes: seq<StorageWrite>,
    pairsSpawned: nat,
    runSaves: nat)

  /** A storage write that this game can produce. */
  predicate GoodWrite(w: StorageWrite) {
    w.ScoresWrite? ==> w.highScore >= 0 && |w.history| <= MaxHistory
  }

  /** Stored values of the kind a previous session of the game writes. */
  predicate GoodLoaded(l: Loaded) {
    && (l.highScore.Some? ==> l.highScore.value >= 0)
    && (l.scoresHistory.Some? ==> |l.scoresHistory.value| <= MaxHistory)
  }

  /** The state once the globals are initialised and the storage load has completed. */
  function Initial(l: Loaded): State {
    State(Start, BirdStartY, 0.0, 0.0, [], 0, 0, l.highScore.GetOr(0), false,
          l.scoresHistory.GetOr([]), l.soundsEnabled.GetOr(true), [], 0, 0)
  }

  /** Every pipe's right edge is at or right of the left border. */
  predicate OnScreen(ps: seq<Pipe>) {
    forall k :: 0 <= k < |ps| ==> ps[k].x + ps[k].width >= 0.0
  }

  /** What holds of every state the game reaches, except that the pipes are on screen. */
  predicate Consistent(s: State, c: Canvas) {
    && 0 <= s.currentScore <= s.highScore
    && |s.scoresHistory| <= MaxHistory
    && Paired(s.pipes, c)
    && s.currentScore + UncountedTops(s.pipes) <= s.pairsSpawned
    && s.runSaves == (if s.mode == GameOver then 1 else 0)
    && (forall k :: 0 <= k < |s.writes| ==> GoodWrite(s.writes[k]))
  }

  /** What holds of every state the game reaches. */
  predicate Invariant(s: State, c: Canvas) {
    Consistent(s, c) && OnScreen(s.pipes)
  }

  // ---------------------------------------------------------------- scoring

  /** Current score, high score and new-high-score flag, as the update loop changes them. */
  datatype Tally = Tally(score: int, high: int, newHigh: bool)

  /** One point: `currentScore++` and the high-score check that follows it. */
  function Bump(t: Tally): (r: Tally)
    ensures r.score == t.score + 1
    ensures r.high == MaxInt(t.high, r.score)
    ensures t.score <= t.high ==> (r.newHigh <==> t.newHigh || r.score > t.high)
  {
    var score := t.score + 1;
    if score > t.high then
      var wasNewHighScore := t.high == 0 || score - 1 == t.high;
      Tally(score, score, t.newHigh || wasNewHighScore)
    else
      t.(score := score)
  }

  function BumpTimes(t: Tally, n: nat): (r: Tally)
    ensures r.score == t.score + n
    ensures r.high >= t.high
  {
    if n == 0 then t else Bump(BumpTimes(t, n - 1))
  }

  function MaxInt(a: int, b: int): int { if a >= b then a else b }

  /**
   * From a state where the score does not exceed the high score, n points
   * raise the score by n, the high score to the larger of the two, and set
   * the flag exactly when the old high score is beaten.
   */
  lemma {:induction false} BumpTimesFromValid(t: Tally, n: nat)
    requires t.score <= t.high
    ensures BumpTimes(t, n) == Tally(t.score + n, MaxInt(t.high, t.score + n), t.newHigh || t.score + n > t.high)
  {
    if n > 0 {
      BumpTimesFromValid(t, n - 1);
    }
  }

  // ------------------------------------------------------------------ jump

  /** `resetGame`: a fresh run in PLAYING; high score, history and sound setting are kept. */
  function ResetState(s: State, c: Canvas): State {
    s.(mode := Playing, birdY := c.height / 2.0, velocity := 0.0, rotation := 0.0,
       pipes := [], currentScore := 0, frameCount := 0, newHighScoreAchieved := false,
       pairsSpawned := 0, runSaves := 0)
  }

  /** `jump`: start the game, flap, or restart after a game over. */
  function JumpSpec(s: State, c: Canvas): (r: State)
    ensures r.mode == Playing
    ensures r.highScore == s.highScore && r.scoresHistory == s.scoresHistory
    ensures r.soundsEnabled == s.soundsEnabled && r.writes == s.writes
  {
    match s.mode
    case Start => s.(mode := Playing)
    case Playing => s.(velocity := Lift)
    case GameOver => ResetState(s, c)
  }

  lemma JumpTransitions(s: State, c: Canvas)
    ensures var s' := JumpSpec(s, c);
      && s'.mode == Playing
      && s'.highScore == s.highScore && s'.scoresHistory == s.scoresHistory
      && s'.soundsEnabled == s.soundsEnabled && s'.writes == s.writes
      && (s.mode == Start ==> s'.velocity == s.velocity && s' == s.(mode := Playing))
      && (s.mode == Playing ==> s' == s.(velocity := Lift) && JumpSpec(s', c) == s')
      && (s.mode == GameOver ==>
            && s'.pipes == [] && s'.currentScore == 0 && s'.frameCount == 0
            && s'.velocity == 0.0 && s'.rotation == 0.0 && s'.birdY == c.height / 2.0
            && !s'.newHighScoreAchieved)
  {
  }

  lemma JumpPreservesInvariant(s: State, c: Canvas)
    requires Invariant(s, c)
    ensures Invariant(JumpSpec(s, c), c)
  {
  }

  // ---------------------------------------------------------------- a frame

  /** Semi-implicit integration: velocity first, then position with the new velocity; then the rotation. */
  function Fall(s: State): State {
    var velocity := s.velocity + Gravity;
    s.(velocity := velocity, birdY := s.birdY + velocity, rotation := Rotation(velocity))
  }

  /** The pipe list just before the update loop: a pair is appended on spawn frames. */
  function Spawned(s: State, random: real, c: Canvas): seq<Pipe>
    requires 0.0 <= random < 1.0
  {
    if s.frameCount % SpawnInterval == 0 then s.pipes + NewPair(random, c) else s.pipes
  }

  /** `createPipe` on every frame whose counter is a multiple of 120. */
  function SpawnPipes(s: State, random: real, c: Canvas): State
    requires 0.0 <= random < 1.0
  {
    if s.frameCount % SpawnInterval == 0 then
      s.(pipes := Spawned(s, random, c), pairsSpawned := s.pairsSpawned + 1)
    else
      s
  }

  /** The update loop over the pipes, with the points it awards. */
  function MovePipes(s: State): State {
    var t := BumpTimes(Tally(s.currentScore, s.highScore, s.newHighScoreAchieved), Gained(s.pipes));
    s.(pipes := Advanced(s.pipes), currentScore := t.score, highScore := t.high, newHighScoreAchieved := t.newHigh)
  }

  /** On a collision: GAME_OVER and `saveScore(currentScore)`. */
  function EndOnCollision(s: State, timestamp: string, c: Canvas): State {
    if Colliding(s.birdY, s.pipes, c) then
      var history := Saved(s.scoresHistory, ScoreEntry(s.currentScore, timestamp));
      s.(mode := GameOver, scoresHistory := history,
         writes := s.writes + [ScoresWrite(s.highScore, history)], runSaves := s.runSaves + 1)
    else
      s
  }

  /** The PLAYING branch of `gameLoop`; `random` feeds `createPipe` and `timestamp` feeds `saveScore`. */
  function PlayingFrame(s: State, random: real, timestamp: string, c: Canvas): (r: State)
    requires 0.0 <= random < 1.0
    ensures r.frameCount == s.frameCount + 1
    ensures r.mode == s.mode || r.mode == GameOver
    ensures r.currentScore >= s.currentScore && r.highScore >= s.highScore
    ensures r.soundsEnabled == s.soundsEnabled
  {
    var s' := EndOnCollision(MovePipes(SpawnPipes(Fall(s), random, c)), timestamp, c);
    s'.(frameCount := s'.frameCount + 1)
  }

  /** One call of `gameLoop`: only PLAYING changes the state; the other modes only draw. */
  function FrameSpec(s: State, random: real, timestamp: string, c: Canvas): (r: State)
    requires 0.0 <= random < 1.0
    ensures s.mode != Playing ==> r == s
    ensures r.mode == Start <==> s.mode == Start
    ensures r.frameCount >= s.frameCount && r.highScore >= s.highScore
  {
    if s.mode == Playing then PlayingFrame(s, random, timestamp, c) else s
  }

  /** Bird kinematics of a PLAYING frame: velocity before position, rotation clamped, one more frame. */
  lemma PlayingFrameMotion(s: State, random: real, timestamp: string, c: Canvas)
    requires 0.0 <= random < 1.0
    requires s.mode == Playing
    ensures var s' := FrameSpec(s, random, timestamp, c);
      && s'.velocity == s.velocity + Gravity
      && s'.birdY == s.birdY + s'.velocity
      && -MaxRotation <= s'.rotation <= MaxRotation
      && s'.frameCount == s.frameCount + 1
      && s'.soundsEnabled == s.soundsEnabled
  {
  }

  /**
   * Pipes and score of a PLAYING frame: a pair is added exactly on frames
   * whose counter is a multiple of 120, the list is advanced once, the score
   * rises by the points gained, and the high score follows it.
   */
  lemma PlayingFramePipesAndScore(s: State, random: real, timestamp: string, c: Canvas)
    requires 0.0 <= random < 1.0
    requires s.mode == Playing && s.currentScore <= s.highScore
    ensures var s' := FrameSpec(s, random, timestamp, c);
      var spawn := s.frameCount % SpawnInterval == 0;
      && s'.pairsSpawned == (if spawn then s.pairsSpawned + 1 else s.pairsSpawned)
      && s'.pipes == Advanced(s.pipes) + (if spawn then Advanced(NewPair(random, c)) else [])
      && s'.currentScore == s.currentScore + Gained(s.pipes) + (if spawn then Gained(NewPair(random, c)) else 0)
      && s'.highScore == MaxInt(s.highScore, s'.currentScore)
      && s'.newHighScoreAchieved == (s.newHighScoreAchieved || s'.currentScore > s.highScore)
  {
    var spawn := s.frameCount % SpawnInterval == 0;
    var s1 := SpawnPipes(Fall(s), random, c);
    assert s1.pipes == Spawned(s, random, c);
    if spawn {
      AdvancedConcat(s.pipes, NewPair(random, c));
    }
    BumpTimesFromValid(Tally(s.currentScore, s.highScore, s.newHighScoreAchieved), Gained(s1.pipes));
    var s2 := MovePipes(s1);
    var s3 := EndOnCollision(s2, timestamp, c);
    assert s3.(mode := s2.mode, scoresHistory := s2.scoresHistory, writes := s2.writes, runSaves := s2.runSaves) == s2;
    assert FrameSpec(s, random, timestamp, c) == s3.(frameCount := s3.frameCount + 1);
  }

  /** A PLAYING frame ends the run exactly on a collision, and then saves the score once. */
  lemma PlayingFrameGameOver(s: State, random: real, timestamp: string, c: Canvas)
    requires 0.0 <= random < 1.0
    requires s.mode == Playing && Invariant(s, c)
    ensures var s' := FrameSpec(s, random, timestamp, c);
      && (s'.mode == GameOver <==> Colliding(s'.birdY, s'.pipes, c))
      && (s'.mode == GameOver ==>
            && s'.scoresHistory == Saved(s.scoresHistory, ScoreEntry(s'.currentScore, timestamp))
            && s'.writes == s.writes + [ScoresWrite(s'.highScore, s'.scoresHistory)]
            && s'.runSaves == 1)
      && (s'.mode != GameOver ==>
            s'.mode == Playing && s'.scoresHistory == s.scoresHistory && s'.writes == s.writes && s'.runSaves == 0)
  {
  }

  /** Flying up through the top edge ends the run: y = 0 with velocity -1 gives y = -0.5. */
  lemma TopOutExample(s: State, random: real, timestamp: string, c: Canvas)
    requires 0.0 <= random < 1.0
    requires s.mode == Playing && s.birdY == 0.0 && s.velocity == -1.0
    ensures FrameSpec(s, random, timestamp, c).birdY == -0.5
    ensures FrameSpec(s, random, timestamp, c).mode == GameOver
  {
  }

  lemma SpawnPipesKeeps(s: State, random: real, c: Canvas)
    requires 0.0 <= random < 1.0
    requires Consistent(s, c)
    ensures Consistent(SpawnPipes(s, random, c), c)
  {
    if s.frameCount % SpawnInterval == 0 {
      NewPairPaired(random, c);
      PairedConcat(s.pipes, NewPair(random, c), c);
      UncountedConcat(s.pipes, NewPair(random, c));
      NewPairUncounted(random, c);
    }
  }

  /**
   * The update loop keeps the list made of pairs and brings it on screen,
   * raises the score by the points gained with the high score following it,
   * and keeps the score plus the top pipes still uncounted within the pairs spawned.
   */
  lemma MovePipesKeeps(s: State, c: Canvas)
    requires Consistent(s, c)
    ensures var s' := MovePipes(s);
      && s'.currentScore == s.currentScore + Gained(s.pipes)
      && s'.highScore == MaxInt(s.highScore, s'.currentScore)
      && s'.newHighScoreAchieved == (s.newHighScoreAchieved || s'.currentScore > s.highScore)
      && Invariant(s', c)
  {
    PairedAdvanced(s.pipes, c);
    AdvancedOnScreen(s.pipes);
    ScoreConsumesUncounted(s.pipes);
    BumpTimesFromValid(Tally(s.currentScore, s.highScore, s.newHighScoreAchieved), Gained(s.pipes));
  }

  lemma EndOnCollisionKeeps(s: State, timestamp: string, c: Canvas)
    requires s.mode == Playing && Invariant(s, c)
    ensures Invariant(EndOnCollision(s, timestamp, c), c)
  {
  }

  lemma {:induction false} FramePreservesInvariant(s: State, random: real, timestamp: string, c: Canvas)
    requires 0.0 <= random < 1.0
    requires Invariant(s, c)
    ensures Invariant(FrameSpec(s, random, timestamp, c), c)
  {
    if s.mode == Playing {
      var s1 := SpawnPipes(Fall(s), random, c);
      SpawnPipesKeeps(Fall(s), random, c);
      var s2 := MovePipes(s1);
      MovePipesKeeps(s1, c);
      var s3 := EndOnCollision(s2, timestamp, c);
      EndOnCollisionKeeps(s2, timestamp, c);
      assert FrameSpec(s, random, timestamp, c) == s3.(frameCount := s3.frameCount + 1);
    }
  }

  // ------------------------------------------------------------ sound toggle

  const SoundTextWidth: real := 80.0

  /** `checkSoundToggleClick`'s hit test: the sound label's box for the current mode. */
  predicate ToggleHit(mode: Mode, x: real, y: real, c: Canvas) {
    var centerX := c.width / 2.0;
    if mode == Start || mode == GameOver then
      x >= centerX - SoundTextWidth / 2.0 && x <= centerX + SoundTextWidth / 2.0 && y >= 485.0 && y <= 505.0
    else
      x >= c.width - 40.0 && x <= c.width - 10.0 && y >= 10.0 && y <= 30.0
  }

  /** `toggleSound`: flip the setting and store it. */
  function ToggleSound(s: State): State {
    s.(soundsEnabled := !s.soundsEnabled, writes := s.writes + [SoundWrite(!s.soundsEnabled)])
  }

  /** A click on the canvas: a hit on the sound label toggles sound, anything else is a jump. */
  function ClickSpec(s: State, x: real, y: real, c: Canvas): (r: State)
    ensures r.highScore == s.highScore && r.scoresHistory == s.scoresHistory
    ensures r.mode == s.mode || r.mode == Playing
    ensures r.soundsEnabled != s.soundsEnabled ==> r.mode == s.mode
  {
    if ToggleHit(s.mode, x, y, c) then ToggleSound(s) else JumpSpec(s, c)
  }

  /**
   * A click flips the sound setting exactly when it hits the label's box, and
   * then changes nothing else but the stored setting; two such clicks restore it.
   */
  lemma ClickToggles(s: State, x: real, y: real, c: Canvas)
    ensures var s' := ClickSpec(s, x, y, c);
      && (s'.soundsEnabled != s.soundsEnabled <==> ToggleHit(s.mode, x, y, c))
      && (ToggleHit(s.mode, x, y, c) ==>
            s' == s.(soundsEnabled := !s.soundsEnabled, writes := s.writes + [SoundWrite(s'.soundsEnabled)])
            && ClickSpec(s', x, y, c).soundsEnabled == s.soundsEnabled)
      && (!ToggleHit(s.mode, x, y, c) ==> s' == JumpSpec(s, c))
  {
  }

  /** The two boxes of `checkSoundToggleClick`, in terms of the mode. */
  lemma ToggleBoxes(mode: Mode, x: real, y: real, c: Canvas)
    ensures mode != Playing ==>
      (ToggleHit(mode, x, y, c) <==> -40.0 <= x - c.width / 2.0 <= 40.0 && 485.0 <= y <= 505.0)
    ensures mode == Playing ==>
      (ToggleHit(mode, x, y, c) <==> 10.0 <= c.width - x <= 40.0 && 10.0 <= y <= 30.0)
  {
  }

  lemma ClickPreservesInvariant(s: State, x: real, y: real, c: Canvas)
    requires Invariant(s, c)
    ensures Invariant(ClickSpec(s, x, y, c), c)
  {
    JumpPreservesInvariant(s, c);
  }

  lemma InitialInvariant(l: Loaded, c: Canvas)
    requires GoodLoaded(l)
    ensures Invariant(Initial(l), c)
    ensures Initial(l).mode == Start && Initial(l).currentScore == 0
  {
  }
}
