/**
 * Properties of the collision test and of moveChasers (modules/game-logic.ts),
 * stated over the model in GameLogic.
 */
module GameLogicProofs {
  import opened Numeric
  import opened GameLogic

  // ---------------------------------------------------------------------
  // isGameOver

  /** Game over on a concatenation is game over on either part; no chasers never end the game. */
  lemma {:induction false} IsGameOverAppend(player: Character, a: seq<Character>, b: seq<Character>)
    ensures IsGameOver(player, a + b) <==> IsGameOver(player, a) || IsGameOver(player, b)
    ensures !IsGameOver(player, [])
  {
    var ab := a + b;
    if IsGameOver(player, ab) {
      var k :| 0 <= k < |ab| && Collides(player, ab[k]);
      if k < |a| {
        assert ab[k] == a[k];
      } else {
        assert ab[k] == b[k - |a|];
      }
    }
    if IsGameOver(player, a) {
      var k :| 0 <= k < |a| && Collides(player, a[k]);
      assert ab[k] == a[k];
    }
    if IsGameOver(player, b) {
      var k :| 0 <= k < |b| && Collides(player, b[k]);
      assert ab[|a| + k] == b[k];
    }
  }

  /** Adding chasers never turns a game over back into a running game. */
  lemma AddingChasersKeepsGameOver(player: Character, chasers: seq<Character>, extra: Character)
    requires IsGameOver(player, chasers)
    ensures IsGameOver(player, chasers + [extra])
    ensures IsGameOver(player, [extra] + chasers)
  {
    IsGameOverAppend(player, chasers, [extra]);
    IsGameOverAppend(player, [extra], chasers);
  }

  /** Only the chasers' positions matter: their width, height and image play no part. */
  lemma {:induction false} IsGameOverIgnoresChaserShape(player: Character, a: seq<Character>, b: seq<Character>)
    requires |a| == |b|
    requires forall k :: 0 <= k < |a| ==> a[k].x == b[k].x && a[k].y == b[k].y
    ensures IsGameOver(player, a) == IsGameOver(player, b)
  {
    if IsGameOver(player, a) {
      var k :| 0 <= k < |a| && Collides(player, a[k]);
      assert Collides(player, b[k]);
    }
    if IsGameOver(player, b) {
      var k :| 0 <= k < |b| && Collides(player, b[k]);
      assert Collides(player, a[k]);
    }
  }

  /** The collision examples of the game-logic tests: a 50 by 50 player at (100, 100). */
  lemma CollisionExamples()
    ensures var p := Character(100.0, 100.0, 50.0, 50.0, NoImage);
            var near := Character(120.0, 120.0, 50.0, 50.0, NoImage);
            var far := Character(200.0, 200.0, 50.0, 50.0, NoImage);
            && IsGameOver(p, [near])
            && !IsGameOver(p, [far])
            && IsGameOver(p, [far, near])
  {
    var p := Character(100.0, 100.0, 50.0, 50.0, NoImage);
    var near := Character(120.0, 120.0, 50.0, 50.0, NoImage);
    var far := Character(200.0, 200.0, 50.0, 50.0, NoImage);
    assert Collides(p, [near][0]);
    assert [far, near][1] == near;
    assert !Collides(p, far);
  }

  // ---------------------------------------------------------------------
  // Pursuit

  /**
   * With a positive speed, a chaser that is not on the player moves towards
   * it on each axis: the step has the sign of the offset to the player.
   */
  lemma PursueTowardsPlayer(m: MathLib, player: Character, c: Character, speed: real)
    requires SqrtLaw(m.sqrt)
    requires 0.0 < speed
    requires c.x != player.x || c.y != player.y
    ensures var r := Pursue(m, player, c, speed);
            && Sign(r.x - c.x) == Sign(player.x - c.x)
            && Sign(r.y - c.y) == Sign(player.y - c.y)
  {
    var dx := player.x - c.x;
    var dy := player.y - c.y;
    HypotZeroIff(m, dx, dy);
    var distance := Hypot(m, dx, dy);
    var half := speed / 2.0;
    ScaledDirectionSign(dx, distance, half);
    ScaledDirectionSign(dy, distance, half);
  }

  /**
   * The pursuit step runs along the line from the chaser to the player: the
   * step's x and y are in the same ratio as the offset's.
   */
  lemma PursueAlongLine(m: MathLib, player: Character, c: Character, speed: real)
    ensures var r := Pursue(m, player, c, speed);
            (r.x - c.x) * (player.y - c.y) == (r.y - c.y) * (player.x - c.x)
  {
  }

  /** A chaser on the player's position stays where it is. */
  lemma PursueOnPlayerStays(m: MathLib, player: Character, c: Character, speed: real)
    requires SqrtLaw(m.sqrt)
    requires c.x == player.x && c.y == player.y
    ensures Pursue(m, player, c, speed) == c
  {
    HypotZeroIff(m, player.x - c.x, player.y - c.y);
  }

  /** The moveChasers test: a chaser at the origin chasing a player at (100, 100) with speed 10 gains in x and y. */
  lemma PursuitExample(m: MathLib)
    requires SqrtLaw(m.sqrt)
    ensures var player := Character(100.0, 100.0, 50.0, 50.0, NoImage);
            var r := MoveChasers(m, player, [Character(0.0, 0.0, 50.0, 50.0, NoImage)], 10.0);
            r[0].x > 0.0 && r[0].y > 0.0
  {
    var player := Character(100.0, 100.0, 50.0, 50.0, NoImage);
    var c := Character(0.0, 0.0, 50.0, 50.0, NoImage);
    PursueTowardsPlayer(m, player, c, 10.0);
    SeparationOfShortLists(m, Pursuit(m, player, [c], 10.0), 10.0);
    assert Pursuit(m, player, [c], 10.0)[0] == Pursue(m, player, c, 10.0);
  }

  // ---------------------------------------------------------------------
  // Separation

  /** A list of at most one chaser has no pair to separate. */
  lemma SeparationOfShortLists(m: MathLib, cs: seq<Character>, speed: real)
    requires |cs| <= 1
    ensures Pairs(|cs|) == []
    ensures Separate(m, cs, speed) == cs
  {
    var step := NudgeStep(m, speed);
    if |cs| == 1 {
      assert Row(0, 1, 1) == [];
      assert PairsFrom(1, 1) == [];
      assert VisitRow(step, cs, 0, 1, 1) == cs;
    }
  }

  /** With at most one chaser, moveChasers is the pursuit step alone. */
  lemma MoveChasersOfShortLists(m: MathLib, player: Character, chasers: seq<Character>, speed: real)
    requires |chasers| <= 1
    ensures MoveChasers(m, player, chasers, speed) == Pursuit(m, player, chasers, speed)
  {
    SeparationOfShortLists(m, Pursuit(m, player, chasers, speed), speed);
  }

  /** The separation loops visit exactly the pairs i < j < n, each once, in lexicographic order. */
  lemma PairsExactlyOnce(n: nat)
    ensures LexSorted(Pairs(n))
    ensures forall p: Pair :: p in Pairs(n) <==> p.i < p.j < n
    ensures forall a, b :: 0 <= a < b < |Pairs(n)| ==> Pairs(n)[a] != Pairs(n)[b]
  {
    var ps := Pairs(n);
    PairsFromComplete(0, n);
    forall p: Pair | p in ps ensures p.i < p.j < n {
      var k :| 0 <= k < |ps| && ps[k] == p;
    }
    forall p: Pair | p.i < p.j < n ensures p in ps {
      assert Pair(p.i, p.j) == p;
    }
  }

  /** The inner loop for row i from column j is the visit of that row's pairs. */
  lemma {:induction false} VisitRowIsRow<T>(step: (T, Pair) -> T, x: T, i: nat, j: nat, n: nat)
    ensures VisitRow(step, x, i, j, n) == VisitAll(step, x, Row(i, j, n))
    decreases n - j
  {
    if j < n {
      var ps := Row(i, j, n);
      assert ps[0] == Pair(i, j) && ps[1..] == Row(i, j + 1, n);
      VisitRowIsRow(step, step(x, Pair(i, j)), i, j + 1, n);
    }
  }

  /** Visiting a + b is visiting a, then b from where a left off. */
  lemma {:induction false} VisitAllConcat<T>(step: (T, Pair) -> T, x: T, a: seq<Pair>, b: seq<Pair>)
    ensures VisitAll(step, x, a + b) == VisitAll(step, VisitAll(step, x, a), b)
    decreases |a|
  {
    if |a| == 0 {
      assert a + b == b;
    } else {
      assert (a + b)[0] == a[0] && (a + b)[1..] == a[1..] + b;
      VisitAllConcat(step, step(x, a[0]), a[1..], b);
    }
  }

  /** The outer loop from row i is the visit of the pairs from row i on. */
  lemma {:induction false} VisitFromIsPairsFrom<T>(step: (T, Pair) -> T, x: T, i: nat, n: nat)
    ensures VisitFrom(step, x, i, n) == VisitAll(step, x, PairsFrom(i, n))
    decreases n - i
  {
    if i < n {
      VisitRowIsRow(step, x, i, i + 1, n);
      VisitAllConcat(step, x, Row(i, i + 1, n), PairsFrom(i + 1, n));
      VisitFromIsPairsFrom(step, VisitRow(step, x, i, i + 1, n), i + 1, n);
    }
  }

  /**
   * The separation phase is one nudge per pair of Pairs, in that list's
   * order; with PairsExactlyOnce, every pair i < j is nudged exactly once,
   * in lexicographic order, each nudge on the positions the ones before left.
   */
  lemma SeparateIsPairs(m: MathLib, cs: seq<Character>, speed: real)
    ensures Separate(m, cs, speed) == VisitAll(NudgeStep(m, speed), cs, Pairs(|cs|))
  {
    VisitFromIsPairsFrom(NudgeStep(m, speed), cs, 0, |cs|);
  }

  /** The pairs of three chasers, in visiting order. */
  lemma PairsOfThree()
    ensures Pairs(3) == [Pair(0, 1), Pair(0, 2), Pair(1, 2)]
  {
    assert Row(0, 1, 3) == [Pair(0, 1), Pair(0, 2)];
    assert Row(1, 2, 3) == [Pair(1, 2)];
    assert Row(2, 3, 3) == [];
    assert PairsFrom(2, 3) == [];
  }

  /** The two coordinates of a character. */
  datatype Axis = X | Y

  function Coord(c: Character, axis: Axis): real {
    match axis
    case X => c.x
    case Y => c.y
  }

  /** The sum of the chasers' coordinates on one axis, i.e. |cs| times their centroid. */
  function Sum(cs: seq<Character>, axis: Axis): real {
    if |cs| == 0 then 0.0 else Coord(cs[0], axis) + Sum(cs[1..], axis)
  }

  /** Replacing one chaser changes the sum by the change of that chaser alone. */
  lemma {:induction false} SumUpdate(cs: seq<Character>, k: nat, c: Character, axis: Axis)
    requires k < |cs|
    ensures Sum(cs[k := c], axis) == Sum(cs, axis) - Coord(cs[k], axis) + Coord(c, axis)
  {
    if k == 0 {
      assert cs[k := c][1..] == cs[1..];
    } else {
      assert cs[k := c][1..] == cs[1..][k - 1 := c];
      SumUpdate(cs[1..], k - 1, c, axis);
    }
  }

  /** A nudge moves the two chasers by opposite amounts, so the sum on either axis is kept. */
  lemma NudgeKeepsSum(m: MathLib, cs: seq<Character>, p: Pair, speed: real, axis: Axis)
    requires p.i < p.j < |cs|
    ensures Sum(Nudge(m, cs, p, speed), axis) == Sum(cs, axis)
  {
    var r := Nudge(m, cs, p, speed);
    var mid := cs[p.i := r[p.i]];
    assert r == mid[p.j := r[p.j]];
    SumUpdate(cs, p.i, r[p.i], axis);
    SumUpdate(mid, p.j, r[p.j], axis);
  }

  /**
   * The separation phase keeps the chasers' centroid: it only pushes pairs
   * apart symmetrically, so the whole group's pursuit is the pursuit phase's.
   */
  lemma SeparationKeepsSums(m: MathLib, cs: seq<Character>, speed: real)
    ensures Sum(Separate(m, cs, speed), X) == Sum(cs, X)
    ensures Sum(Separate(m, cs, speed), Y) == Sum(cs, Y)
  {
    SeparationKeepsSum(m, cs, speed, X);
    SeparationKeepsSum(m, cs, speed, Y);
  }

  /** The separation phase keeps the sum on one axis, nudge by nudge. */
  lemma SeparationKeepsSum(m: MathLib, cs: seq<Character>, speed: real, axis: Axis)
    ensures Sum(Separate(m, cs, speed), axis) == Sum(cs, axis)
  {
    var step := NudgeStep(m, speed);
    var kept := (y: seq<Character>) => Sum(y, axis) == Sum(cs, axis);
    forall y, p | kept(y) ensures kept(step(y, p)) {
      if p.i < p.j < |y| {
        NudgeKeepsSum(m, y, p, speed, axis);
      }
    }
    VisitFromKeeps(step, kept, cs, 0, |cs|);
  }

  /** moveChasers moves the chasers' sum exactly as the pursuit phase alone does. */
  lemma MoveChasersCentroid(m: MathLib, player: Character, chasers: seq<Character>, speed: real)
    ensures Sum(MoveChasers(m, player, chasers, speed), X) == Sum(Pursuit(m, player, chasers, speed), X)
    ensures Sum(MoveChasers(m, player, chasers, speed), Y) == Sum(Pursuit(m, player, chasers, speed), Y)
  {
    SeparationKeepsSums(m, Pursuit(m, player, chasers, speed), speed);
  }

  /** For two chasers the separation phase is the single nudge of the pair (0, 1). */
  lemma SeparationOfPair(m: MathLib, cs: seq<Character>, speed: real)
    requires |cs| == 2
    ensures Separate(m, cs, speed) == Nudge(m, cs, Pair(0, 1), speed)
  {
    var step := NudgeStep(m, speed);
    var once := step(cs, Pair(0, 1));
    assert VisitRow(step, cs, 0, 1, 2) == VisitRow(step, once, 0, 2, 2) == once;
    assert VisitFrom(step, cs, 0, 2) == VisitFrom(step, once, 1, 2);
    assert VisitRow(step, once, 1, 2, 2) == once;
    assert VisitFrom(step, once, 2, 2) == once;
  }

  /** Two chasers far apart from each other pass the separation phase untouched. */
  lemma SeparationOfDistantPair(m: MathLib, cs: seq<Character>, speed: real)
    requires |cs| == 2
    requires MinDistance <= Hypot(m, cs[0].x - cs[1].x, cs[0].y - cs[1].y)
    ensures Separate(m, cs, speed) == cs
  {
    var p := Pair(0, 1);
    assert cs[p.i] == cs[0] && cs[p.j] == cs[1];
    assert Nudge(m, cs, p, speed) == cs;
    SeparationOfPair(m, cs, speed);
  }
}
