/**
 * Properties of one frame of the game (modules/Game.tsx, update) and of the
 * handlers around it, stated over the model in Game.
 */
module GameProofs {
  import opened Wrappers
  import opened Numeric
  import opened GameLogic
  import opened Game

  // ---------------------------------------------------------------------
  // Reachable states

  /** What holds of every state the game reaches. */
  predicate Inv(g: State) {
    && DefaultPlayerSpeed <= g.speed
    && 0.0 <= g.score
    && 0.0 <= g.highScore
    && 0.0 <= g.volume <= 1.0
  }

  /** The invariant holds once the component has mounted. */
  lemma MountInv(width: real, height: real)
    ensures Inv(Mount(width, height))
  {
  }

  /** Every frame keeps the invariant. */
  lemma StepKeepsInv(m: MathLib, g: State)
    requires Inv(g)
    ensures Inv(Step(m, g))
  {
  }

  /** No event handler touches speed, score, high score or volume. */
  lemma HandlersKeepInv(g: State, x: real, y: real, buttons: int, key: Key, width: real, height: real,
                        a: (real, real), b: (real, real), c: (real, real), img1: Image, img2: Image)
    requires Inv(g)
    ensures Inv(Release(g))
    ensures Inv(PointerMove(g, x, y, buttons))
    ensures Inv(TouchMove(g, x, y))
    ensures Inv(KeyDown(g, key)) && Inv(KeyUp(g, key))
    ensures Inv(LoadImages(g, width, height, img1, img2, a, b, c))
  {
    assert Release(g).(targetX := g.targetX, targetY := g.targetY) == g;
  }

  // ---------------------------------------------------------------------
  // Speed, score and high score

  /** The speed of the next frame is 2 up to a score of 10 and a fifth of the score beyond. */
  lemma SpeedFromScore(m: MathLib, g: State)
    requires 0.0 <= g.speed
    ensures Step(m, g).speed == DefaultPlayerSpeed <==> g.score <= 10.0
    ensures 10.0 <= g.score ==> Step(m, g).speed == g.score / 5.0
  {
  }

  /** A collision judged on the positions the frame started with resets the score, then the frame's points are added. */
  lemma ScoreOfFrame(m: MathLib, g: State)
    requires 0.0 <= g.speed
    ensures IsGameOver(g.player, g.chasers) ==> Step(m, g).score == g.speed / 20.0
    ensures !IsGameOver(g.player, g.chasers) ==> Step(m, g).score == g.score + g.speed / 20.0
    ensures !IsGameOver(g.player, g.chasers) && 0.0 < g.speed ==> g.score < Step(m, g).score
  {
  }

  /**
   * The high score takes the score the frame started with, so a frame without
   * a collision that starts with the high score not above the score ends with
   * the score ahead of the high score; the next frame catches up.
   */
  lemma HighScoreLagsOneFrame(m: MathLib, g: State)
    requires 0.0 < g.speed && g.highScore <= g.score
    requires !IsGameOver(g.player, g.chasers)
    ensures Step(m, g).highScore < Step(m, g).score
    ensures Step(m, Step(m, g)).highScore >= Step(m, g).score
  {
  }

  /**
   * A frame from the state right after mounting and loading the sprites in an
   * 800 by 600 window, at score 0 and with the chasers in three corners, ends
   * with the high score below the score.
   */
  lemma HighScoreBelowScoreExample(m: MathLib)
    ensures var g := LoadImages(Mount(800.0, 600.0), 800.0, 600.0, Sprite(0), Sprite(1),
                                (0.0, 0.0), (770.0, 0.0), (0.0, 550.0));
            Inv(g) && Step(m, g).highScore < Step(m, g).score
  {
    var g := LoadImages(Mount(800.0, 600.0), 800.0, 600.0, Sprite(0), Sprite(1),
                        (0.0, 0.0), (770.0, 0.0), (0.0, 550.0));
    assert !Collides(g.player, g.chasers[0]) && !Collides(g.player, g.chasers[1]) && !Collides(g.player, g.chasers[2]);
  }

  /** Score and high score steer nothing during a frame: positions, target, chasers and volume ignore them. */
  lemma ScoreDoesNotMovePieces(m: MathLib, g: State, score: real, highScore: real)
    requires 0.0 <= g.speed
    ensures var a := Step(m, g);
            var b := Step(m, g.(score := score, highScore := highScore));
            a.player == b.player && a.targetX == b.targetX && a.targetY == b.targetY
            && a.chasers == b.chasers && a.volume == b.volume
  {
  }

  // ---------------------------------------------------------------------
  // Player and target

  /** On an axis the pointer does not move, the keyboard moves player and target alike. */
  lemma KeyboardKeepsTargetOffset(m: MathLib, g: State)
    requires 0.0 <= g.speed
    ensures var seek := SeekMove(m, g.player, g.targetX, g.targetY, g.speed, g.window);
            var r := Step(m, g);
            && (seek.x.None? ==> r.targetX - r.player.x == g.targetX - g.player.x)
            && (seek.y.None? ==> r.targetY - r.player.y == g.targetY - g.player.y)
  {
  }

  /** On an axis the pointer moves, the pointer's coordinate wins over the keyboard. */
  lemma SeekOverridesKeyboard(m: MathLib, g: State, keys: Keys)
    requires 0.0 <= g.speed
    ensures var seek := SeekMove(m, g.player, g.targetX, g.targetY, g.speed, g.window);
            var r := Step(m, g.(keys := keys));
            && (seek.x.Some? ==> r.player.x == seek.x.value)
            && (seek.y.Some? ==> r.player.y == seek.y.value)
  {
  }

  /** An accepted pointer step goes towards the target on its axis. */
  lemma SeekTowardsTarget(m: MathLib, p: Character, targetX: real, targetY: real, speed: real, window: Option<Size>)
    requires 0.0 < speed
    ensures var seek := SeekMove(m, p, targetX, targetY, speed, window);
            && (seek.x.Some? ==> Sign(seek.x.value - p.x) == Sign(targetX - p.x))
            && (seek.y.Some? ==> Sign(seek.y.value - p.y) == Sign(targetY - p.y))
  {
    var distance := Hypot(m, targetX - p.x, targetY - p.y);
    if distance > speed {
      ScaledDirectionSign(targetX - p.x, distance, speed);
      ScaledDirectionSign(targetY - p.y, distance, speed);
    }
  }

  /**
   * A target more than one step away does pull the player: on each axis the
   * step towards it is taken exactly when it keeps the player strictly
   * inside the field, and the coordinate set is that step's.
   */
  lemma SeekStepTaken(m: MathLib, p: Character, targetX: real, targetY: real, speed: real, window: Option<Size>)
    requires 0.0 <= speed && speed < Hypot(m, targetX - p.x, targetY - p.y)
    ensures SeekMove(m, p, targetX, targetY, speed, window).x.Some?
        <==> InsideX(StepToward(p.x, targetX - p.x, Hypot(m, targetX - p.x, targetY - p.y), speed), FieldWidth(window))
    ensures SeekMove(m, p, targetX, targetY, speed, window).y.Some?
        <==> InsideY(StepToward(p.y, targetY - p.y, Hypot(m, targetX - p.x, targetY - p.y), speed), FieldHeight(window))
    ensures SeekMove(m, p, targetX, targetY, speed, window).x.Some? ==>
              SeekMove(m, p, targetX, targetY, speed, window).x.value
              == StepToward(p.x, targetX - p.x, Hypot(m, targetX - p.x, targetY - p.y), speed)
    ensures SeekMove(m, p, targetX, targetY, speed, window).y.Some? ==>
              SeekMove(m, p, targetX, targetY, speed, window).y.value
              == StepToward(p.y, targetY - p.y, Hypot(m, targetX - p.x, targetY - p.y), speed)
  {
  }

  /**
   * Each axis of the pointer step is accepted or dropped on its own: the
   * horizontal outcome does not depend on the window's height, nor the
   * vertical one on its width.
   */
  lemma SeekAxesIndependent(m: MathLib, p: Character, targetX: real, targetY: real, speed: real,
                            width: real, height1: real, height2: real, width2: real)
    requires 0.0 <= speed
    ensures SeekMove(m, p, targetX, targetY, speed, Some(Size(width, height1))).x
         == SeekMove(m, p, targetX, targetY, speed, Some(Size(width, height2))).x
    ensures SeekMove(m, p, targetX, targetY, speed, Some(Size(width, height1))).y
         == SeekMove(m, p, targetX, targetY, speed, Some(Size(width2, height1))).y
  {
  }

  /** A target within one step does not pull the player. */
  lemma NoSeekWithinOneStep(m: MathLib, g: State)
    requires 0.0 <= g.speed
    requires Hypot(m, g.targetX - g.player.x, g.targetY - g.player.y) <= g.speed
    ensures var r := Step(m, g);
            var shift := KeyShift(g.keys, g.player, g.speed, g.window);
            r.player.x == g.player.x + shift.dx && r.player.y == g.player.y + shift.dy
  {
    assert SeekMove(m, g.player, g.targetX, g.targetY, g.speed, g.window) == Seek(None, None);
  }

  /**
   * After mouse-up or touch-end the pointer no longer pulls: the next frame
   * moves the player by the keyboard alone, and the target moves with it.
   */
  lemma ReleaseStopsSeek(m: MathLib, g: State)
    requires SqrtLaw(m.sqrt)
    requires 0.0 <= g.speed
    ensures var r := Step(m, Release(g));
            var shift := KeyShift(g.keys, g.player, g.speed, g.window);
            && r.player.x == g.player.x + shift.dx && r.player.y == g.player.y + shift.dy
            && r.targetX == r.player.x && r.targetY == r.player.y
  {
    var h := Release(g);
    HypotZeroIff(m, h.targetX - h.player.x, h.targetY - h.player.y);
    var seek := SeekMove(m, h.player, h.targetX, h.targetY, h.speed, h.window);
    assert seek == Seek(None, None);
  }

  /** A player strictly inside the field stays strictly inside it, whatever keys are held and wherever the target is. */
  lemma StepKeepsPlayerInField(m: MathLib, g: State)
    requires 0.0 <= g.speed
    requires InsideX(g.player.x, FieldWidth(g.window)) && InsideY(g.player.y, FieldHeight(g.window))
    ensures var r := Step(m, g);
            InsideX(r.player.x, FieldWidth(r.window)) && InsideY(r.player.y, FieldHeight(r.window))
  {
  }

  /** After the sprites load in a window larger than a character, the player starts inside the field. */
  lemma LoadedPlayerInField(g: State, width: real, height: real, img1: Image, img2: Image,
                            a: (real, real), b: (real, real), c: (real, real))
    requires g.window == Some(Size(width, height))
    requires CharacterWidth < width && CharacterHeight < height
    ensures var r := LoadImages(g, width, height, img1, img2, a, b, c);
            InsideX(r.player.x, FieldWidth(r.window)) && InsideY(r.player.y, FieldHeight(r.window))
  {
  }

  /** Pressing and releasing an arrow that was not held restores the keys. */
  lemma KeyDownThenUp(g: State, key: Key)
    requires !Held(g.keys, key)
    ensures KeyUp(KeyDown(g, key), key) == g
  {
  }

  /** A held arrow with room to move shifts the player by the full speed in its direction. */
  lemma ArrowMovesPlayer(keys: Keys, p: Character, speed: real, window: Option<Size>)
    requires 0.0 < speed
    ensures keys.left && !keys.right && p.x - speed > 0.0 ==> KeyShift(keys, p, speed, window).dx == -speed
    ensures keys.right && !keys.left && p.x + speed + CharacterWidth < FieldWidth(window)
            ==> KeyShift(keys, p, speed, window).dx == speed
    ensures keys.up && !keys.down && p.y - speed > 0.0 ==> KeyShift(keys, p, speed, window).dy == -speed
    ensures keys.down && !keys.up && p.y + speed + CharacterHeight < FieldHeight(window)
            ==> KeyShift(keys, p, speed, window).dy == speed
    ensures keys.left && !keys.right && p.x - speed <= 0.0 ==> KeyShift(keys, p, speed, window).dx == 0.0
    ensures keys.right && !keys.left && FieldWidth(window) <= p.x + speed + CharacterWidth
            ==> KeyShift(keys, p, speed, window).dx == 0.0
    ensures keys.up && !keys.down && p.y - speed <= 0.0 ==> KeyShift(keys, p, speed, window).dy == 0.0
    ensures keys.down && !keys.up && FieldHeight(window) <= p.y + speed + CharacterHeight
            ==> KeyShift(keys, p, speed, window).dy == 0.0
  {
  }

  /**
   * The four arrows act independently: the shift on an axis is the sum of
   * what each of its two arrows would do alone, so opposite arrows that both
   * have room cancel out.
   */
  lemma ArrowsAddUp(keys: Keys, p: Character, speed: real, window: Option<Size>)
    ensures KeyShift(keys, p, speed, window).dx
         == KeyShift(keys.(right := false), p, speed, window).dx + KeyShift(keys.(left := false), p, speed, window).dx
    ensures KeyShift(keys, p, speed, window).dy
         == KeyShift(keys.(down := false), p, speed, window).dy + KeyShift(keys.(up := false), p, speed, window).dy
  {
  }

  /** Opposite arrows held together with room on both sides leave the player where it is on that axis. */
  lemma OppositeArrowsCancel(keys: Keys, p: Character, speed: real, window: Option<Size>)
    requires 0.0 < speed
    ensures keys.left && keys.right && p.x - speed > 0.0 && p.x + speed + CharacterWidth < FieldWidth(window)
            ==> KeyShift(keys, p, speed, window).dx == 0.0
    ensures keys.up && keys.down && p.y - speed > 0.0 && p.y + speed + CharacterHeight < FieldHeight(window)
            ==> KeyShift(keys, p, speed, window).dy == 0.0
  {
  }

  // ---------------------------------------------------------------------
  // Volume

  /** A chaser on the player plays the music at full volume. */
  lemma VolumeAtContact(d: real, maxSize: real)
    requires maxSize != 0.0 && d == 0.0
    ensures Clamp01(Intensity(d, maxSize)) == 1.0
  {
    assert 1.0 - d / (maxSize / 4.0) == 1.0;
  }

  /** A closest chaser a quarter of the window away silences the music. */
  lemma VolumeSilentAtQuarter(d: real, maxSize: real)
    requires maxSize != 0.0 && d == maxSize / 4.0
    ensures Clamp01(Intensity(d, maxSize)) == 0.0
  {
    assert d / (maxSize / 4.0) == 1.0;
  }

  /**
   * The floor at 0 is taken after squaring, so it never bites: a closest
   * chaser half the window or more away plays the music at full volume
   * again, as loud as one touching the player.
   */
  lemma VolumeLoudWhenFar(d: real, maxSize: real)
    requires 0.0 < maxSize && maxSize / 2.0 <= d
    ensures Clamp01(Intensity(d, maxSize)) == 1.0
  {
    var q := 1.0 - d / (maxSize / 4.0);
    assert q <= -1.0;
    var e := -1.0 - q;
    assert q * q == 1.0 + 2.0 * e + e * e;
    assert 0.0 <= e * e;
  }

  /** Closer chasers are louder within a quarter of the window. */
  lemma VolumeMonotoneNear(d1: real, d2: real, maxSize: real)
    requires 0.0 < maxSize && 0.0 <= d1 <= d2 <= maxSize / 4.0
    ensures Clamp01(Intensity(d2, maxSize)) <= Clamp01(Intensity(d1, maxSize))
  {
    var c := maxSize / 4.0;
    var q1 := 1.0 - d1 / c;
    var q2 := 1.0 - d2 / c;
    assert d2 / c - d1 / c == (d2 - d1) / c;
    assert 0.0 <= (d2 - d1) / c;
    assert q2 == (c - d2) / c;
    assert 0.0 <= (c - d2) / c;
    assert 0.0 <= q2 <= q1;
    var e := q1 - q2;
    assert q1 * q1 == q2 * q2 + e * (q1 + q2);
    assert 0.0 <= e * (q1 + q2);
  }

  /** Before the window is measured, a frame with chasers mutes the music. */
  lemma VolumeWithoutWindow(m: MathLib, g: State)
    requires 0.0 <= g.speed && g.window == None && |g.chasers| > 0
    ensures Step(m, g).volume == 0.0
  {
  }

  /** A frame's volume is set by the chaser closest to the player, whichever it is. */
  lemma VolumeFollowsClosestChaser(m: MathLib, g: State, k: nat)
    requires 0.0 <= g.speed && k < |g.chasers|
    requires forall j :: 0 <= j < |g.chasers| ==> DistanceTo(m, g.player, g.chasers[k]) <= DistanceTo(m, g.player, g.chasers[j])
    ensures Step(m, g).volume == Clamp01(Intensity(DistanceTo(m, g.player, g.chasers[k]), MaxSize(g.window)))
  {
    ClosestDistanceIsMinimum(m, g.player, g.chasers, k);
    assert Step(m, g).volume == ProximityVolume(m, g.player, g.chasers, g.window);
  }

  /** The running minimum is the distance to any chaser that is at least as close as every other. */
  lemma ClosestDistanceIsMinimum(m: MathLib, player: Character, chasers: seq<Character>, k: nat)
    requires k < |chasers|
    requires forall j :: 0 <= j < |chasers| ==> DistanceTo(m, player, chasers[k]) <= DistanceTo(m, player, chasers[j])
    ensures ClosestDistance(m, player, chasers) == DistanceTo(m, player, chasers[k])
  {
    var d := ClosestDistance(m, player, chasers);
    var j :| 0 <= j < |chasers| && d == DistanceTo(m, player, chasers[j]);
  }

  /** The clamp examples: below, inside and above the range. */
  lemma ClampExamples()
    ensures Clamp01(-0.5) == 0.0 && Clamp01(1.5) == 1.0 && Clamp01(0.5) == 0.5
  {
  }

  /** The clamp keeps the order of volumes: a louder request is never played quieter. */
  lemma ClampMonotone(v1: real, v2: real)
    requires v1 <= v2
    ensures Clamp01(v1) <= Clamp01(v2)
  {
  }
}
