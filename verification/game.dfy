/**
 * Model of the game component in modules/Game.tsx: the state the component
 * keeps, the per-frame update, the pointer, touch and key handlers that feed
 * it, and the volume clamp of the background-music hook.
 *
 * Every React state setter of one frame is folded into one pure function
 * Step from the state before the frame to the state after it. The setters
 * written in updater form (`setPlayer((player) => ...)`) chain on the
 * pending value; the others read the values the frame started with.
 */
module Game {
  import opened Wrappers
  import opened Numeric
  import opened GameLogic

  const CharacterWidth: real := 30.0
  const CharacterHeight: real := 50.0
  const DefaultPlayerSpeed: real := 2.0
  /** The music volume before the first frame with chasers. */
  const InitialVolume: real := 0.2

  /** The browser window's inner size. */
  datatype Size = Size(width: real, height: real)

  /** Which arrow keys are held down. */
  datatype Keys = Keys(up: bool, down: bool, left: bool, right: bool)

  /** A key named by a keyboard event. The game stores keys other than the arrows, and the frame never reads them. */
  datatype Key = ArrowUp | ArrowDown | ArrowLeft | ArrowRight | OtherKey(name: string)

  /** The key a keyboard event names: the four arrow names are the arrows, any other name is recorded as is. */
  function KeyOf(name: string): (k: Key)
    ensures k == ArrowUp <==> name == "ArrowUp"
    ensures k == ArrowDown <==> name == "ArrowDown"
    ensures k == ArrowLeft <==> name == "ArrowLeft"
    ensures k == ArrowRight <==> name == "ArrowRight"
    ensures k.OtherKey? ==> k.name == name
  {
    if name == "ArrowUp" then ArrowUp
    else if name == "ArrowDown" then ArrowDown
    else if name == "ArrowLeft" then ArrowLeft
    else if name == "ArrowRight" then ArrowRight
    else OtherKey(name)
  }

  /** The component state that the game loop reads and writes. */
  datatype State = State(
    window: Option<Size>,
    player: Character,
    targetX: real,
    targetY: real,
    speed: real,
    score: real,
    highScore: real,
    chasers: seq<Character>,
    keys: Keys,
    volume: real)

  // ---------------------------------------------------------------------
  // The playing field

  /** The window width, or 0 before the window has been measured (`windowSize?.width ?? 0`). */
  function FieldWidth(window: Option<Size>): real {
    match window
    case Some(size) => size.width
    case None => 0.0
  }

  /** The window height, or 0 before the window has been measured. */
  function FieldHeight(window: Option<Size>): real {
    match window
    case Some(size) => size.height
    case None => 0.0
  }

  /** The larger window dimension, or 0 before the window has been measured. */
  function MaxSize(window: Option<Size>): real {
    match window
    case Some(size) => Max(size.width, size.height)
    case None => 0.0
  }

  /** A character whose left edge is at x lies strictly inside a field of width w. */
  predicate InsideX(x: real, w: real) {
    0.0 < x && x + CharacterWidth < w
  }

  /** A character whose top edge is at y lies strictly inside a field of height h. */
  predicate InsideY(y: real, h: real) {
    0.0 < y && y + CharacterHeight < h
  }

  // ---------------------------------------------------------------------
  // Player movement

  /** How far the held arrow keys move the player (and the target) in one frame. */
  datatype Shift = Shift(dx: real, dy: real)

  /**
   * The keyboard part of the frame. Each held arrow moves by speed when the
   * move keeps the player on its side of the field edge; all four guards
   * read the position the frame started with, so opposite arrows held
   * together cancel out when both have room to move.
   */
  function KeyShift(keys: Keys, p: Character, speed: real, window: Option<Size>): (r: Shift)
    ensures r.dx == 0.0 || r.dx == speed || r.dx == -speed
    ensures r.dy == 0.0 || r.dy == speed || r.dy == -speed
    ensures !keys.left && !keys.right ==> r.dx == 0.0
    ensures !keys.up && !keys.down ==> r.dy == 0.0
    ensures 0.0 <= speed && InsideX(p.x, FieldWidth(window)) ==> InsideX(p.x + r.dx, FieldWidth(window))
    ensures 0.0 <= speed && InsideY(p.y, FieldHeight(window)) ==> InsideY(p.y + r.dy, FieldHeight(window))
  {
    var up := if keys.up && p.y - speed > 0.0 then -speed else 0.0;
    var down := if keys.down && p.y + speed + CharacterHeight < FieldHeight(window) then speed else 0.0;
    var left := if keys.left && p.x - speed > 0.0 then -speed else 0.0;
    var right := if keys.right && p.x + speed + CharacterWidth < FieldWidth(window) then speed else 0.0;
    Shift(left + right, up + down)
  }

  /** One coordinate after a step of length speed along the offset vector whose length is distance. */
  function StepToward(from: real, offset: real, distance: real, speed: real): real
    requires distance != 0.0
  {
    from + (offset / distance) * speed
  }

  /** The pointer part of the frame: the coordinates it sets, if any, one axis at a time. */
  datatype Seek = Seek(x: Option<real>, y: Option<real>)

  /**
   * The pointer part of the frame: when the target is more than one step
   * away, the player takes a step of length speed towards it, and each
   * coordinate of that step is taken only if it keeps the player strictly
   * inside the field.
   */
  function SeekMove(m: MathLib, p: Character, targetX: real, targetY: real, speed: real, window: Option<Size>): (r: Seek)
    requires 0.0 <= speed
    ensures r.x.Some? ==> InsideX(r.x.value, FieldWidth(window))
    ensures r.y.Some? ==> InsideY(r.y.value, FieldHeight(window))
    ensures r.x.Some? || r.y.Some? ==> speed < Hypot(m, targetX - p.x, targetY - p.y)
  {
    var dx := targetX - p.x;
    var dy := targetY - p.y;
    var distance := Hypot(m, dx, dy);
    if distance > speed then
      var nx := StepToward(p.x, dx, distance, speed);
      var ny := StepToward(p.y, dy, distance, speed);
      Seek(if InsideX(nx, FieldWidth(window)) then Some(nx) else None,
           if InsideY(ny, FieldHeight(window)) then Some(ny) else None)
    else
      Seek(None, None)
  }

  // ---------------------------------------------------------------------
  // Music volume

  /** Math.max(0, Math.min(1, v)): a volume the audio element accepts. */
  function Clamp01(v: real): (r: real)
    ensures 0.0 <= r <= 1.0
    ensures 0.0 <= v <= 1.0 ==> r == v
    ensures v < 0.0 ==> r == 0.0
    ensures 1.0 < v ==> r == 1.0
  {
    Max(0.0, Min(1.0, v))
  }

  /** The distance from the player's corner to a chaser's corner. */
  function DistanceTo(m: MathLib, player: Character, c: Character): real {
    Hypot(m, player.x - c.x, player.y - c.y)
  }

  /** The smallest distance from the player to a chaser, folded from the first chaser to the last. */
  function ClosestDistance(m: MathLib, player: Character, chasers: seq<Character>): (d: real)
    requires |chasers| > 0
    ensures forall k :: 0 <= k < |chasers| ==> d <= DistanceTo(m, player, chasers[k])
    ensures exists k :: 0 <= k < |chasers| && d == DistanceTo(m, player, chasers[k])
    decreases |chasers|
  {
    var last := DistanceTo(m, player, chasers[|chasers| - 1]);
    if |chasers| == 1 then last
    else
      var rest := ClosestDistance(m, player, chasers[..|chasers| - 1]);
      assert forall k :: 0 <= k < |chasers| - 1 ==> chasers[..|chasers| - 1][k] == chasers[k];
      Min(rest, last)
  }

  /** The loop in `update`: a running minimum that starts at Infinity, written here as None. */
  method ClosestDistanceLoop(m: MathLib, player: Character, chasers: seq<Character>) returns (d: real)
    requires |chasers| > 0
    ensures d == ClosestDistance(m, player, chasers)
  {
    var best: Option<real> := None;
    var i := 0;
    while i < |chasers|
      invariant 0 <= i <= |chasers|
      invariant i == 0 <==> best == None
      invariant 0 < i ==> best == Some(ClosestDistance(m, player, chasers[..i]))
    {
      var distance := DistanceTo(m, player, chasers[i]);
      assert chasers[..i + 1][..i] == chasers[..i];
      best := Some(match best case None => distance case Some(b) => Min(b, distance));
      i := i + 1;
    }
    assert chasers[..i] == chasers;
    d := best.value;
  }

  /**
   * The loudness for a closest distance d in a window whose larger side is
   * maxSize: (1 - d / (maxSize / 4)) squared, floored at 0, and 0 when the
   * window has not been measured.
   */
  function Intensity(d: real, maxSize: real): real {
    if maxSize != 0.0 then
      var q := 1.0 - d / (maxSize / 4.0);
      Max(0.0, q * q)
    else 0.0
  }

  /** The volume set by a frame with at least one chaser. */
  function ProximityVolume(m: MathLib, player: Character, chasers: seq<Character>, window: Option<Size>): (v: real)
    requires |chasers| > 0
    ensures 0.0 <= v <= 1.0
  {
    Clamp01(Intensity(ClosestDistance(m, player, chasers), MaxSize(window)))
  }

  // ---------------------------------------------------------------------
  // One frame

  /**
   * One call of update. Positions, chasers, volume, speed and score all
   * read the state the frame started with; the player's and the target's
   * keyboard moves and the score reset chain as updater-form setters do.
   * The speed is non-negative in every reachable state (see StepKeepsInv).
   */
  function Step(m: MathLib, g: State): (r: State)
    requires 0.0 <= g.speed
    ensures |r.chasers| == |g.chasers|
    ensures forall k :: 0 <= k < |r.chasers| ==> SameShape(r.chasers[k], g.chasers[k])
    ensures SameShape(r.player, g.player)
    ensures DefaultPlayerSpeed <= r.speed
    ensures g.score <= r.highScore && g.highScore <= r.highScore
    ensures r.highScore == g.score || r.highScore == g.highScore
    ensures r.chasers == MoveChasers(m, g.player, g.chasers, g.speed)
    ensures r.targetX == g.targetX + KeyShift(g.keys, g.player, g.speed, g.window).dx
    ensures r.targetY == g.targetY + KeyShift(g.keys, g.player, g.speed, g.window).dy
    ensures |g.chasers| > 0 ==> 0.0 <= r.volume <= 1.0
    ensures |g.chasers| == 0 ==> r.volume == g.volume
    ensures r.window == g.window && r.keys == g.keys
  {
    var shift := KeyShift(g.keys, g.player, g.speed, g.window);
    var seek := SeekMove(m, g.player, g.targetX, g.targetY, g.speed, g.window);
    var score := if IsGameOver(g.player, g.chasers) then 0.0 else g.score;
    g.(player := g.player.(x := seek.x.GetOr(g.player.x + shift.dx), y := seek.y.GetOr(g.player.y + shift.dy)),
       targetX := g.targetX + shift.dx,
       targetY := g.targetY + shift.dy,
       chasers := MoveChasers(m, g.player, g.chasers, g.speed),
       volume := if |g.chasers| > 0 then ProximityVolume(m, g.player, g.chasers, g.window) else g.volume,
       speed := DefaultPlayerSpeed * Max(g.score / 10.0, 1.0),
       score := score + g.speed / 20.0,
       highScore := Max(g.score, g.highScore))
  }

  // ---------------------------------------------------------------------
  // Event handlers

  /** Mouse-up and touch-end: the target snaps to the player, so the pointer stops pulling it. */
  function Release(g: State): (r: State)
    ensures r.targetX == r.player.x && r.targetY == r.player.y
    ensures r.(targetX := g.targetX, targetY := g.targetY) == g
  {
    g.(targetX := g.player.x, targetY := g.player.y)
  }

  /** Mouse move: with the primary button alone held, the player's centre is to follow the pointer. */
  function PointerMove(g: State, clientX: real, clientY: real, buttons: int): (r: State)
    ensures buttons == 1 ==> r.targetX + CharacterWidth / 2.0 == clientX && r.targetY + CharacterHeight / 2.0 == clientY
    ensures r.(targetX := g.targetX, targetY := g.targetY) == g
    ensures buttons != 1 ==> r == g
  {
    if buttons == 1 then g.(targetX := clientX - CharacterWidth / 2.0, targetY := clientY - CharacterHeight / 2.0)
    else g
  }

  /** Touch move: the player's centre is to follow the first touch point. */
  function TouchMove(g: State, clientX: real, clientY: real): (r: State)
    ensures r.targetX + CharacterWidth / 2.0 == clientX && r.targetY + CharacterHeight / 2.0 == clientY
    ensures r.(targetX := g.targetX, targetY := g.targetY) == g
  {
    g.(targetX := clientX - CharacterWidth / 2.0, targetY := clientY - CharacterHeight / 2.0)
  }

  /** The arrow a key stands for is held. Other keys are never held in this sense. */
  predicate Held(keys: Keys, key: Key) {
    match key
    case ArrowUp => keys.up
    case ArrowDown => keys.down
    case ArrowLeft => keys.left
    case ArrowRight => keys.right
    case OtherKey(_) => false
  }

  /** The held-keys record with the flag of one key set to `down`; other keys change nothing. */
  function SetKey(keys: Keys, key: Key, down: bool): (r: Keys)
    ensures !key.OtherKey? ==> Held(r, key) == down
    ensures forall other: Key :: other != key ==> Held(r, other) == Held(keys, other)
  {
    match key
    case ArrowUp => keys.(up := down)
    case ArrowDown => keys.(down := down)
    case ArrowLeft => keys.(left := down)
    case ArrowRight => keys.(right := down)
    case OtherKey(_) => keys
  }

  /** keydown: the key is now held. */
  function KeyDown(g: State, key: Key): (r: State)
    ensures !key.OtherKey? ==> Held(r.keys, key)
    ensures forall other: Key :: other != key ==> Held(r.keys, other) == Held(g.keys, other)
    ensures r.(keys := g.keys) == g
  {
    g.(keys := SetKey(g.keys, key, true))
  }

  /** keyup: the key is no longer held. */
  function KeyUp(g: State, key: Key): (r: State)
    ensures !Held(r.keys, key)
    ensures forall other: Key :: other != key ==> Held(r.keys, other) == Held(g.keys, other)
    ensures r.(keys := g.keys) == g
  {
    g.(keys := SetKey(g.keys, key, false))
  }

  // ---------------------------------------------------------------------
  // Start of play

  /** A character of the game's fixed size at (x, y). */
  function CreateCharacter(x: real, y: real, image: Image): Character {
    Character(x, y, CharacterWidth, CharacterHeight, image)
  }

  /**
   * The state after the first effect has measured a window of the given
   * size: the target is centred, while the player is the zero-sized
   * placeholder at the origin until the sprites load.
   */
  function Mount(width: real, height: real): (g: State)
    ensures g.window == Some(Size(width, height))
    ensures g.targetX + CharacterWidth / 2.0 == width / 2.0
    ensures g.targetY + CharacterHeight / 2.0 == height / 2.0
    ensures g.chasers == [] && g.score == 0.0 && g.highScore == 0.0
    ensures g.speed == DefaultPlayerSpeed && g.volume == InitialVolume
    ensures g.keys == Keys(false, false, false, false)
    ensures g.player == Character(0.0, 0.0, 0.0, 0.0, NoImage)
  {
    State(Some(Size(width, height)),
          Character(0.0, 0.0, 0.0, 0.0, NoImage),
          width / 2.0 - CharacterWidth / 2.0, height / 2.0 - CharacterHeight / 2.0,
          DefaultPlayerSpeed, 0.0, 0.0, [],
          Keys(false, false, false, false),
          InitialVolume)
  }

  /**
   * The sprites have loaded: the player is placed at the centre of the
   * window and three chasers at the given positions, which the game draws
   * at random inside the window.
   */
  function LoadImages(g: State, width: real, height: real, playerImage: Image, chaserImage: Image,
                      a: (real, real), b: (real, real), c: (real, real)): (r: State)
    ensures r.player.x + CharacterWidth / 2.0 == width / 2.0
    ensures r.player.y + CharacterHeight / 2.0 == height / 2.0
    ensures r.player.width == CharacterWidth && r.player.height == CharacterHeight && r.player.image == playerImage
    ensures |r.chasers| == 3
    ensures r.chasers[0].x == a.0 && r.chasers[0].y == a.1
    ensures r.chasers[1].x == b.0 && r.chasers[1].y == b.1
    ensures r.chasers[2].x == c.0 && r.chasers[2].y == c.1
    ensures forall k :: 0 <= k < 3 ==>
              r.chasers[k].image == chaserImage && r.chasers[k].width == CharacterWidth && r.chasers[k].height == CharacterHeight
    ensures r.(player := g.player, chasers := g.chasers) == g
  {
    g.(player := CreateCharacter(width / 2.0 - CharacterWidth / 2.0, height / 2.0 - CharacterHeight / 2.0, playerImage),
       chasers := [CreateCharacter(a.0, a.1, chaserImage), CreateCharacter(b.0, b.1, chaserImage),
                   CreateCharacter(c.0, c.1, chaserImage)])
  }
}
