/**
 * Model of modules/game-logic.ts: the Character record, the collision test
 * isGameOver and the chaser steering step moveChasers.
 *
 * Characters are immutable values, so moveChasers returning a new list and
 * leaving its argument untouched holds by construction.
 */
module GameLogic {
  import opened Numeric

  /** An opaque handle to a loaded sprite; NoImage stands for the null image before loading. */
  datatype Image = NoImage | Sprite(handle: nat)

  /** An axis-aligned box anchored at its top-left corner. Players and chasers share this shape. */
  datatype Character = Character(x: real, y: real, width: real, height: real, image: Image)

  /** The two characters differ at most in position. */
  predicate SameShape(a: Character, b: Character) {
    a.width == b.width && a.height == b.height && a.image == b.image
  }

  /**
   * The chaser is inside the player's danger rectangle: closer than the
   * player's width horizontally and than the player's height vertically.
   * The chaser's own size plays no part.
   */
  predicate Collides(player: Character, chaser: Character) {
    Abs(player.x - chaser.x) < player.width && Abs(player.y - chaser.y) < player.height
  }

  /** isGameOver: scans the chasers in order and stops at the first one that collides. */
  function IsGameOver(player: Character, chasers: seq<Character>): (r: bool)
    ensures r <==> exists k :: 0 <= k < |chasers| && Collides(player, chasers[k])
  {
    if |chasers| == 0 then false
    else if Collides(player, chasers[0]) then true
    else IsGameOver(player, chasers[1..])
  }

  // ---------------------------------------------------------------------
  // Pursuit phase

  /**
   * One chaser's pursuit step: speed / 2 along the unit vector towards the
   * player. A chaser exactly on the player has no direction; moveChasers
   * divides by zero there, and this model leaves such a chaser in place.
   */
  function Pursue(m: MathLib, player: Character, c: Character, speed: real): (r: Character)
    ensures SameShape(r, c)
  {
    var dx := player.x - c.x;
    var dy := player.y - c.y;
    var distance := Hypot(m, dx, dy);
    if distance == 0.0 then c
    else c.(x := c.x + (dx / distance) * (speed / 2.0), y := c.y + (dy / distance) * (speed / 2.0))
  }

  /** The pursuit phase: every chaser steps towards the same pre-move player position. */
  function Pursuit(m: MathLib, player: Character, chasers: seq<Character>, speed: real): (r: seq<Character>)
    ensures |r| == |chasers|
    ensures forall k :: 0 <= k < |r| ==> SameShape(r[k], chasers[k])
  {
    seq(|chasers|, k requires 0 <= k < |chasers| => Pursue(m, player, chasers[k], speed))
  }

  // ---------------------------------------------------------------------
  // Separation phase

  /** Chasers closer than this are nudged apart. */
  const MinDistance: real := 50.0

  /** An index pair (i, j) of the chaser list. */
  datatype Pair = Pair(i: nat, j: nat)

  /** Every pair has i < j and both indices inside a list of length n. */
  predicate PairsWithin(ps: seq<Pair>, n: nat) {
    forall k :: 0 <= k < |ps| ==> ps[k].i < ps[k].j < n
  }

  /**
   * One iteration of the inner separation loop on the pair (i, j). When the
   * two chasers are closer than MinDistance, chaser i moves by
   * v = (cos a, sin a) * speed / 2 with a = atan2(dy, dx), and chaser j by -v.
   */
  function Nudge(m: MathLib, cs: seq<Character>, p: Pair, speed: real): (r: seq<Character>)
    requires p.i < p.j < |cs|
    ensures |r| == |cs|
    ensures forall k :: 0 <= k < |cs| ==> SameShape(r[k], cs[k])
    ensures forall k :: 0 <= k < |cs| && k != p.i && k != p.j ==> r[k] == cs[k]
    ensures r[p.i].x - cs[p.i].x == cs[p.j].x - r[p.j].x
    ensures r[p.i].y - cs[p.i].y == cs[p.j].y - r[p.j].y
    ensures MinDistance <= Hypot(m, cs[p.i].x - cs[p.j].x, cs[p.i].y - cs[p.j].y) ==> r == cs
  {
    var a, b := cs[p.i], cs[p.j];
    var dx, dy := a.x - b.x, a.y - b.y;
    if Hypot(m, dx, dy) < MinDistance then
      var angle := m.atan2(dy, dx);
      var vx, vy := m.cos(angle) * (speed / 2.0), m.sin(angle) * (speed / 2.0);
      cs[p.i := a.(x := a.x + vx, y := a.y + vy)][p.j := b.(x := b.x - vx, y := b.y - vy)]
    else
      cs
  }

  /**
   * Nudge as a step over any pair: a pair outside the list, which the
   * separation loops never produce, leaves the chasers as they are.
   */
  function NudgeStep(m: MathLib, speed: real): (seq<Character>, Pair) -> seq<Character> {
    (cs: seq<Character>, p: Pair) => if p.i < p.j < |cs| then Nudge(m, cs, p, speed) else cs
  }

  /** On a pair inside the list, the step is that pair's nudge. */
  lemma NudgeStepApply(m: MathLib, speed: real, cs: seq<Character>, p: Pair)
    requires p.i < p.j < |cs|
    ensures NudgeStep(m, speed)(cs, p) == Nudge(m, cs, p, speed)
  {
  }

  /** Applies step to each pair of ps in turn, each on the result of the ones before. */
  function VisitAll<T>(step: (T, Pair) -> T, x: T, ps: seq<Pair>): T
    decreases |ps|
  {
    if |ps| == 0 then x else VisitAll(step, step(x, ps[0]), ps[1..])
  }

  /** The inner separation loop for row i from column j: the pairs (i, j), ..., (i, n - 1) in turn. */
  function VisitRow<T>(step: (T, Pair) -> T, x: T, i: nat, j: nat, n: nat): T
    decreases n - j
  {
    if j < n then VisitRow(step, step(x, Pair(i, j)), i, j + 1, n) else x
  }

  /** One turn of the inner loop: the step on (i, j), then the rest of the row. */
  lemma VisitRowUnfold<T>(step: (T, Pair) -> T, x: T, i: nat, j: nat, n: nat)
    requires j < n
    ensures VisitRow(step, x, i, j, n) == VisitRow(step, step(x, Pair(i, j)), i, j + 1, n)
  {
  }

  /** The outer separation loop from row i: each row in turn, on what the rows before left. */
  function VisitFrom<T>(step: (T, Pair) -> T, x: T, i: nat, n: nat): T
    decreases n - i
  {
    if i < n then VisitFrom(step, VisitRow(step, x, i, i + 1, n), i + 1, n) else x
  }

  /** A property every step keeps holds after the inner loop. */
  lemma {:induction false} VisitRowKeeps<T>(step: (T, Pair) -> T, inv: T -> bool, x: T, i: nat, j: nat, n: nat)
    requires inv(x)
    requires forall y, p :: inv(y) ==> inv(step(y, p))
    ensures inv(VisitRow(step, x, i, j, n))
    decreases n - j
  {
    if j < n {
      VisitRowKeeps(step, inv, step(x, Pair(i, j)), i, j + 1, n);
    }
  }

  /** A property every step keeps holds after the outer loop. */
  lemma {:induction false} VisitFromKeeps<T>(step: (T, Pair) -> T, inv: T -> bool, x: T, i: nat, n: nat)
    requires inv(x)
    requires forall y, p :: inv(y) ==> inv(step(y, p))
    ensures inv(VisitFrom(step, x, i, n))
    decreases n - i
  {
    if i < n {
      VisitRowKeeps(step, inv, x, i, i + 1, n);
      VisitFromKeeps(step, inv, VisitRow(step, x, i, i + 1, n), i + 1, n);
    }
  }

  /** a comes before b in lexicographic order */
  predicate LexBefore(a: Pair, b: Pair) {
    a.i < b.i || (a.i == b.i && a.j < b.j)
  }

  /** Strictly increasing in lexicographic order, hence without repetition. */
  predicate LexSorted(ps: seq<Pair>) {
    forall a, b :: 0 <= a < b < |ps| ==> LexBefore(ps[a], ps[b])
  }

  /** The pairs (i, j), (i, j + 1), ..., (i, n - 1) visited by the inner loop. */
  function Row(i: nat, j: nat, n: nat): (ps: seq<Pair>)
    ensures forall k :: 0 <= k < |ps| ==> ps[k].i == i && j <= ps[k].j < n
    ensures LexSorted(ps)
    decreases n - j
  {
    if j < n then [Pair(i, j)] + Row(i, j + 1, n) else []
  }

  /** The pairs visited by the outer loop from row i on. */
  function PairsFrom(i: nat, n: nat): (ps: seq<Pair>)
    ensures forall k :: 0 <= k < |ps| ==> i <= ps[k].i < ps[k].j < n
    ensures LexSorted(ps)
    decreases n - i
  {
    if i < n then Row(i, i + 1, n) + PairsFrom(i + 1, n) else []
  }

  /** The inner loop for row i from column j reaches every column from j to n - 1. */
  lemma {:induction false} RowComplete(i: nat, j: nat, n: nat)
    ensures forall b :: j <= b < n ==> Pair(i, b) in Row(i, j, n)
    decreases n - j
  {
    if j < n {
      RowComplete(i, j + 1, n);
      assert Row(i, j, n) == [Pair(i, j)] + Row(i, j + 1, n);
    }
  }

  /** The outer loop from row i visits every pair a < b with i <= a. */
  lemma {:induction false} PairsFromComplete(i: nat, n: nat)
    ensures forall a, b :: i <= a < b < n ==> Pair(a, b) in PairsFrom(i, n)
    decreases n - i
  {
    if i < n {
      PairsFromComplete(i + 1, n);
      RowComplete(i, i + 1, n);
      assert PairsFrom(i, n) == Row(i, i + 1, n) + PairsFrom(i + 1, n);
    }
  }

  /** The visiting order of the separation loops for n chasers; every pair lies inside the list. */
  function Pairs(n: nat): (ps: seq<Pair>)
    ensures PairsWithin(ps, n)
  {
    PairsFrom(0, n)
  }

  /** Same length, and each chaser keeps the width, height and image of its counterpart in like. */
  predicate ShapedLike(cs: seq<Character>, like: seq<Character>) {
    |cs| == |like| && forall k :: 0 <= k < |cs| ==> SameShape(cs[k], like[k])
  }

  /** Every nudge, hence both separation loops, keeps the length and the chasers' shapes. */
  lemma VisitFromKeepsShape(m: MathLib, cs: seq<Character>, speed: real)
    ensures ShapedLike(VisitFrom(NudgeStep(m, speed), cs, 0, |cs|), cs)
  {
    var step := NudgeStep(m, speed);
    var shaped := (y: seq<Character>) => ShapedLike(y, cs);
    forall y, p | shaped(y) ensures shaped(step(y, p)) {
      if p.i < p.j < |y| {
        NudgeStepApply(m, speed, y, p);
      }
    }
    VisitFromKeeps(step, shaped, cs, 0, |cs|);
  }

  /** The separation phase: the two nested loops over the pairs i < j, on a working copy. */
  function Separate(m: MathLib, cs: seq<Character>, speed: real): (r: seq<Character>)
    ensures |r| == |cs|
    ensures forall k :: 0 <= k < |cs| ==> SameShape(r[k], cs[k])
  {
    VisitFromKeepsShape(m, cs, speed);
    VisitFrom(NudgeStep(m, speed), cs, 0, |cs|)
  }

  /** moveChasers: the pursuit phase for every chaser, then the separation phase. */
  function MoveChasers(m: MathLib, player: Character, chasers: seq<Character>, speed: real): (r: seq<Character>)
    ensures |r| == |chasers|
    ensures forall k :: 0 <= k < |r| ==> SameShape(r[k], chasers[k])
  {
    Separate(m, Pursuit(m, player, chasers, speed), speed)
  }

  /** moveChasers as the game writes it: a copy, the pursuit loop, then the two nested separation loops. */
  method MoveChasersLoop(m: MathLib, player: Character, chasers: seq<Character>, speed: real)
    returns (out: seq<Character>)
    ensures out == MoveChasers(m, player, chasers, speed)
  {
    out := PursuitLoop(m, player, chasers, speed);
    ghost var step, pursued := NudgeStep(m, speed), out;
    var n := |out|;
    var i := 0;
    while i < n
      invariant i <= n == |out|
      invariant VisitFrom(step, out, i, n) == VisitFrom(step, pursued, 0, n)
    {
      out := SeparateRowLoop(m, out, i, speed);
      i := i + 1;
    }
  }

  /** The first loop of moveChasers: each chaser of the copy takes its pursuit step. */
  method PursuitLoop(m: MathLib, player: Character, chasers: seq<Character>, speed: real)
    returns (out: seq<Character>)
    ensures out == Pursuit(m, player, chasers, speed)
  {
    out := chasers;
    var k := 0;
    while k < |out|
      invariant k <= |out| == |chasers|
      invariant forall q :: 0 <= q < k ==> out[q] == Pursue(m, player, chasers[q], speed)
      invariant forall q :: k <= q < |out| ==> out[q] == chasers[q]
    {
      out := out[k := Pursue(m, player, out[k], speed)];
      k := k + 1;
    }
  }

  /** One turn of the inner separation loop: the nudge of (i, j), then the rest of the row. */
  lemma NudgeThenRow(m: MathLib, cs: seq<Character>, i: nat, j: nat, speed: real)
    requires i < j < |cs|
    ensures VisitRow(NudgeStep(m, speed), cs, i, j, |cs|)
         == VisitRow(NudgeStep(m, speed), Nudge(m, cs, Pair(i, j), speed), i, j + 1, |cs|)
  {
    VisitRowUnfold(NudgeStep(m, speed), cs, i, j, |cs|);
  }

  /** The inner separation loop for row i: the pairs (i, i + 1), ..., (i, n - 1) in turn. */
  method SeparateRowLoop(m: MathLib, cs: seq<Character>, i: nat, speed: real)
    returns (out: seq<Character>)
    requires i < |cs|
    ensures |out| == |cs|
    ensures out == VisitRow(NudgeStep(m, speed), cs, i, i + 1, |cs|)
  {
    ghost var step := NudgeStep(m, speed);
    var n := |cs|;
    out := cs;
    var j := i + 1;
    while j < n
      invariant i < j <= n == |out|
      invariant VisitRow(step, out, i, j, n) == VisitRow(step, cs, i, i + 1, n)
    {
      NudgeThenRow(m, out, i, j, speed);
      out := Nudge(m, out, Pair(i, j), speed);
      j := j + 1;
    }
  }
}
