# run-hippie-run: a Dafny model of the game core

This project models the simulation core of the browser game run-hippie-run, where a player runs from chasers across the browser window.

- The player is steered with the arrow keys, or by holding the mouse button or a finger down.
- Chasers home in on the player and push each other apart when they bunch up.
- A chaser touching the player resets the score.
- The background music grows louder as the closest chaser approaches, while that chaser is within a quarter of the window's larger side.

The model has four main modules and two helper modules, `Wrappers` and `Numeric`.

- `GameLogic` (`game_logic.dfy`) models `modules/game-logic.ts`:
  - the `Character` record;
  - the collision test `isGameOver`;
  - `moveChasers`, both as a pure function and as a method whose loops mirror the source and which is proved to equal the function. The function is a pursuit phase, then a separation phase. The separation phase is written as the two nested loops' recursions (`VisitRow`, `VisitFrom`) over a step function that nudges one pair.
- `GameLogicProofs` (`game_logic_proofs.dfy`) states properties of those:
  - collision is "some chaser's corner is closer to the player's corner than the player's width horizontally and its height vertically", a 2·width by 2·height zone around that corner, and it is monotone under adding chasers;
  - pursuit moves towards the player;
  - separation keeps the chasers' centroid;
  - separation is one nudge per index pair i < j, each pair once, in lexicographic order;
  - the examples from the game's tests.
- `Game` (`game.dfy`) models the game component in `modules/Game.tsx`:
  - its state;
  - one frame of `update` as a pure function `Step` from the state before the frame to the state after it;
  - the mouse, touch and key handlers;
  - the mount and image-loading steps;
  - the volume clamp of the background-music hook.
- `GameProofs` (`game_proofs.dfy`) states properties of frames:
  - an invariant of every reachable state;
  - speed, score and high-score behaviour;
  - keyboard and pointer movement, and the effect of releasing the pointer;
  - that the player stays inside the field;
  - the shape of the volume curve.

`Math.sqrt`, `Math.atan2`, `Math.cos` and `Math.sin` are not defined concretely. They are fields of a `MathLib` value that every operation using them takes as a parameter. Most properties therefore hold for every choice of these functions.

The few that need the square root assume `SqrtLaw`: `sqrt(0) = 0` and `sqrt(x) > 0` for `x > 0`. The real square root satisfies this law. The law is weaker than being the square root, and it is all those proofs use.

Numbers are exact reals, not IEEE doubles.

How a frame is modelled:

- Each frame applies React's state setters in `update`'s order.
- A setter written in updater form (`setPlayer((player) => ...)`, `setScore((score) => ...)`) chains on the pending value.
- Every other read sees the state the frame started with. This covers the collision test, `moveChasers`, the volume, the speed and the high score.

Two consequences of the code as written are proved rather than glossed over:

- **The high score lags the score.** It is updated from the score the frame started with. So a frame without a collision, starting with the high score not above the score, ends with the high score below the score (`GameProofs.HighScoreLagsOneFrame`). A frame right after mounting and loading the sprites, at score 0, is such a frame unless a chaser is placed inside the player's danger zone (`GameProofs.HighScoreBelowScoreExample` shows one placement). In play the loop usually runs frames before the sprites load, so the score at load is then above 0, and the lag holds whenever the high score has caught up. The next frame catches up. A high score that never falls below the score does not hold of this code.
- **Distant chasers are loud.** The volume is `max(0, (1 - d / (maxSize / 4))^2)`. The floor at 0 is applied after squaring, so it never bites. A closest chaser half the window or more away plays the music at full volume, like one touching the player (`GameProofs.VolumeLoudWhenFar`).

## Model

| member | source | states |
|---|---|---|
| Numeric.HypotZeroIff | modules/game-logic.ts:27-29 | under the square-root law a distance is non-negative, and it is 0 exactly when both offsets are 0 |
| GameLogic.IsGameOver | modules/game-logic.ts:11-21 | the game is over exactly when some chaser is closer than the player's width horizontally and closer than the player's height vertically |
| GameLogic.Pursue | modules/game-logic.ts:26-33 | a chaser's pursuit step changes only its position; width, height and image are kept |
| GameLogic.Pursuit | modules/game-logic.ts:24-33 | the pursuit phase returns one chaser per input chaser, each of the same shape as its original |
| GameLogic.Nudge | modules/game-logic.ts:39-54 | a nudge touches only chasers i and j; it moves them by opposite amounts on each axis; chasers at least 50 apart are left as they are |
| GameLogic.VisitRowKeeps | modules/game-logic.ts:38-55 | a property every step keeps holds after the inner loop |
| GameLogic.VisitFromKeeps | modules/game-logic.ts:37-56 | a property every step keeps holds after the two nested loops |
| GameLogic.VisitFromKeepsShape | modules/game-logic.ts:37-56 | the nested loops keep the number of chasers and each chaser's width, height and image |
| GameLogic.Row | modules/game-logic.ts:38 | the inner loop for row i from column j visits pairs (i, b) with j <= b < n, in strictly increasing order |
| GameLogic.PairsFrom | modules/game-logic.ts:37-38 | the outer loop from row i visits only pairs i <= a < b < n, in strictly increasing lexicographic order |
| GameLogic.Pairs | modules/game-logic.ts:37-38 | every pair the separation loops visit names two distinct chasers, the first before the second |
| GameLogic.Separate | modules/game-logic.ts:35-56 | the separation phase keeps the number of chasers and each chaser's shape |
| GameLogic.MoveChasers | modules/game-logic.ts:23-59 | moveChasers returns as many chasers as it was given, each of the same size and image as its original |
| GameLogic.MoveChasersLoop | modules/game-logic.ts:23-59 | the copy, the pursuit loop and the nested separation loops compute exactly the pursuit phase followed by the separation phase |
| GameLogic.PursuitLoop | modules/game-logic.ts:24-33 | the in-place pursuit loop gives every chaser its own pursuit step from the same player position |
| GameLogic.SeparateRowLoop | modules/game-logic.ts:38-55 | the in-place inner loop for row i computes the row's recursion: the pairs (i, i+1), ..., (i, n-1) in turn, each on the positions left by the previous nudge |
| GameLogic.RowComplete | modules/game-logic.ts:38 | the inner loop for row i from column j reaches every column from j to n - 1 |
| GameLogic.PairsFromComplete | modules/game-logic.ts:37-38 | the outer loop from row i reaches every pair a < b < n with i <= a |
| GameLogicProofs.IsGameOverAppend | modules/game-logic.ts:11-21 | the game is over for a + b exactly when it is over for a or for b; it is never over with no chasers |
| GameLogicProofs.AddingChasersKeepsGameOver | modules/game-logic.ts:11-21 | a collision stays a collision when a chaser is added at either end of the list |
| GameLogicProofs.IsGameOverIgnoresChaserShape | modules/game-logic.ts:13-16 | only the chasers' positions decide the outcome; their width, height and image play no part |
| GameLogicProofs.CollisionExamples | test/game-logic.test.ts:6-77 | a 50 by 50 player at (100, 100) collides with a chaser at (120, 120), not with one at (200, 200), and collides with the list of both |
| GameLogicProofs.PursueTowardsPlayer | modules/game-logic.ts:27-32 | with a positive speed, a chaser not on the player moves towards it: on each axis its step has the sign of its offset to the player |
| GameLogicProofs.PursueAlongLine | modules/game-logic.ts:27-32 | the pursuit step runs along the line from the chaser to the player: its x and y are in the ratio of the offset's |
| GameLogicProofs.PursueOnPlayerStays | modules/game-logic.ts:27-32 | a chaser exactly on the player stays where it is |
| GameLogicProofs.PursuitExample | test/game-logic.test.ts:81-106 | a chaser at the origin chasing a player at (100, 100) with speed 10 ends with x > 0 and y > 0 |
| GameLogicProofs.SeparationOfShortLists | modules/game-logic.ts:37-38 | with zero or one chaser there is no pair, and the separation phase changes nothing |
| GameLogicProofs.MoveChasersOfShortLists | modules/game-logic.ts:23-59 | with at most one chaser, moveChasers is the pursuit step alone |
| GameLogicProofs.PairsExactlyOnce | modules/game-logic.ts:37-38 | the separation loops visit exactly the pairs i < j < n, each once, in lexicographic order |
| GameLogicProofs.VisitRowIsRow | modules/game-logic.ts:38-55 | the inner loop for row i from column j applies the step to exactly the pairs of that row, in order |
| GameLogicProofs.VisitAllConcat | modules/game-logic.ts:37-56 | visiting the pairs of a + b is visiting a, then b from what a leaves; this is why the outer loop can proceed row by row |
| GameLogicProofs.VisitFromIsPairsFrom | modules/game-logic.ts:37-56 | the nested loops from row i apply the step to exactly the pairs from row i on, in lexicographic order |
| GameLogicProofs.SeparateIsPairs | modules/game-logic.ts:37-56 | the separation phase is one nudge per pair of the visiting order, each on the positions the nudges before left |
| GameLogicProofs.PairsOfThree | modules/game-logic.ts:37-38 | for three chasers the visiting order is (0, 1), (0, 2), (1, 2) |
| GameLogicProofs.NudgeKeepsSum | modules/game-logic.ts:47-53 | a nudge keeps the sum of the chasers' coordinates on either axis |
| GameLogicProofs.SeparationKeepsSum | modules/game-logic.ts:37-56 | the nested loops keep the sum of the coordinates on one axis, nudge by nudge |
| GameLogicProofs.SeparationKeepsSums | modules/game-logic.ts:35-56 | the separation phase keeps the chasers' centroid on both axes |
| GameLogicProofs.MoveChasersCentroid | modules/game-logic.ts:23-59 | moveChasers moves the chasers' centroid exactly as the pursuit phase alone does |
| GameLogicProofs.SeparationOfPair | modules/game-logic.ts:37-56 | for two chasers the separation phase is the single nudge of the pair (0, 1) |
| GameLogicProofs.SeparationOfDistantPair | modules/game-logic.ts:36-56 | two chasers at least 50 apart pass the separation phase untouched |
| Game.KeyShift | modules/Game.tsx:143-164 | each axis moves by 0, +speed or -speed; it moves by 0 when neither of its arrows is held; a player strictly inside the field stays strictly inside |
| Game.SeekMove | modules/Game.tsx:166-179 | the pointer sets a coordinate only when the target is more than one step away, and only if the player stays strictly inside the field on that axis |
| Game.Clamp01 | modules/Game.tsx:367 | the audio volume lies in [0, 1]; it equals the requested volume inside [0, 1], and is 0 below and 1 above |
| Game.ClosestDistance | modules/Game.tsx:190-197 | the running minimum is at most the distance to every chaser and equals the distance to one of them |
| Game.ClosestDistanceLoop | modules/Game.tsx:191-197 | the loop that starts from Infinity computes the same running minimum |
| Game.ProximityVolume | modules/Game.tsx:198-201 | the volume a frame with chasers sets lies in [0, 1] |
| Game.Step | modules/Game.tsx:141-221 | a frame keeps the chasers' number and shapes and the player's shape; it makes the next speed at least 2; the new high score is the larger of the score and the high score the frame started with; the chasers become moveChasers of the positions at the start of the frame; the target moves by the keyboard shift; it sets a volume in [0, 1] when there are chasers and keeps it otherwise |
| Game.Release | modules/Game.tsx:244-258 | mouse-up and touch-end put the target on the player and change nothing else |
| Game.PointerMove | modules/Game.tsx:223-233 | with the primary button alone, the target becomes the pointer minus half a character; with any other buttons nothing changes |
| Game.TouchMove | modules/Game.tsx:235-242 | the target becomes the touch point minus half a character; nothing else changes |
| Game.KeyOf | modules/Game.tsx:267 | an event's key name is an arrow exactly when it is one of the four arrow names; any other name is kept as it is |
| Game.SetKey | modules/Game.tsx:267 | an arrow key's flag takes the given value and every other key's flag is kept; non-arrow keys change no flag |
| Game.KeyDown | modules/Game.tsx:260-268 | after keydown the arrow is held; the other keys and the rest of the state are unchanged |
| Game.KeyUp | modules/Game.tsx:270-272 | after keyup the key is not held; the other keys and the rest of the state are unchanged |
| Game.Mount | modules/Game.tsx:29-69 | after mounting, the window is measured and the target is centred in it; there are no chasers, no score and no high score; the speed is 2, the volume 0.2, no key is held, and the player is the 0 by 0 placeholder without an image at the origin |
| Game.LoadImages | modules/Game.tsx:71-91 | once the sprites load, the player is a 30 by 50 character with the player sprite, centred in the window; there are three chasers of that size with the chaser sprite, at the three given positions; nothing else changes |
| GameProofs.MountInv | modules/Game.tsx:29-51 | the starting state satisfies the invariant: speed at least 2, non-negative scores and a volume in [0, 1] |
| GameProofs.StepKeepsInv | modules/Game.tsx:141-221 | every frame keeps speed >= 2, non-negative score and high score, and a volume in [0, 1] |
| GameProofs.HandlersKeepInv | modules/Game.tsx:223-272 | no event handler and no image load touches speed, score, high score or volume |
| GameProofs.SpeedFromScore | modules/Game.tsx:205 | the next speed is 2 exactly when the score is at most 10, and a fifth of the score from 10 on |
| GameProofs.ScoreOfFrame | modules/Game.tsx:181-184 | a collision judged on the positions at the start of the frame resets the score before the frame's speed / 20 is added; without one the score strictly grows |
| GameProofs.HighScoreLagsOneFrame | modules/Game.tsx:181-208 | a frame without a collision that starts with the high score not above the score ends with the high score below the score, and the following frame lifts it to at least that score |
| GameProofs.HighScoreBelowScoreExample | modules/Game.tsx:181-208 | from the state right after mounting and loading the sprites in an 800 by 600 window, at score 0 and with the chasers placed away from the player, one frame ends with the high score below the score |
| GameProofs.ScoreDoesNotMovePieces | modules/Game.tsx:141-202 | score and high score have no effect within a frame on the player, target, chasers or volume |
| GameProofs.KeyboardKeepsTargetOffset | modules/Game.tsx:143-164 | on an axis the pointer does not set, the keyboard moves player and target alike, so their offset is kept |
| GameProofs.SeekOverridesKeyboard | modules/Game.tsx:173-178 | on an axis the pointer sets, the player ends at the pointer's coordinate whatever keys are held |
| GameProofs.SeekTowardsTarget | modules/Game.tsx:170-172 | an accepted pointer step on an axis goes towards the target on that axis |
| GameProofs.SeekStepTaken | modules/Game.tsx:167-179 | a target more than one step away sets a coordinate exactly when the step towards it keeps the player strictly inside on that axis, and sets it to that step |
| GameProofs.SeekAxesIndependent | modules/Game.tsx:173-178 | the horizontal outcome of the pointer step does not depend on the window's height, nor the vertical one on its width |
| GameProofs.NoSeekWithinOneStep | modules/Game.tsx:170 | a target within one step leaves the player to the keyboard |
| GameProofs.ReleaseStopsSeek | modules/Game.tsx:244-258 | after a release the next frame moves the player by the keyboard alone, and the target stays on the player |
| GameProofs.StepKeepsPlayerInField | modules/Game.tsx:143-179 | a player strictly inside the field stays strictly inside it after a frame |
| GameProofs.LoadedPlayerInField | modules/Game.tsx:78-84 | in a window larger than a character, the freshly placed player is strictly inside the field |
| GameProofs.KeyDownThenUp | modules/Game.tsx:260-272 | pressing and releasing a key that was not held restores the state |
| GameProofs.ArrowMovesPlayer | modules/Game.tsx:143-164 | for each of the four arrows held alone: with room to move it shifts by the full speed in its direction, and blocked it does not move |
| GameProofs.ArrowsAddUp | modules/Game.tsx:143-164 | the shift on an axis is the sum of what each of its two arrows does alone, each judged on the position the frame started with |
| GameProofs.OppositeArrowsCancel | modules/Game.tsx:143-164 | opposite arrows held together with room on both sides cancel out |
| GameProofs.VolumeAtContact | modules/Game.tsx:199-201 | a chaser on the player gives full volume |
| GameProofs.VolumeSilentAtQuarter | modules/Game.tsx:199-201 | a closest chaser a quarter of the larger window side away gives silence |
| GameProofs.VolumeLoudWhenFar | modules/Game.tsx:199-201 | a closest chaser half the larger window side or more away gives full volume |
| GameProofs.VolumeMonotoneNear | modules/Game.tsx:199-201 | within a quarter of the larger window side, a closer chaser is at least as loud |
| GameProofs.VolumeWithoutWindow | modules/Game.tsx:198-201 | the `windowSize ? … : 0` guard: without a measured window, a frame with chasers mutes the music; in play the guard is never taken, because the loop starts only once the window is measured |
| GameProofs.VolumeFollowsClosestChaser | modules/Game.tsx:190-201 | a frame's volume is the clamped loudness for the distance to the chaser closest to the player |
| GameProofs.ClosestDistanceIsMinimum | modules/Game.tsx:191-197 | the running minimum is the distance to any chaser that is at least as close as every other |
| GameProofs.ClampExamples | modules/Game.tsx:367 | -0.5 clamps to 0, 1.5 to 1, and 0.5 to itself |
| GameProofs.ClampMonotone | modules/Game.tsx:367 | a louder requested volume never clamps to a quieter one |

## Left out

- GameLogic.Pursue: moveChasers divides by a zero distance when a chaser sits exactly on the player, which makes the position NaN. The model keeps such a chaser in place, because there is no NaN among the reals.
- GameLogic.Pursue: its contract states only that the shape is kept. GameLogicProofs.PursueAlongLine states that the step runs along the line to the player, and GameLogicProofs.PursueTowardsPlayer that it goes towards the player on each axis; the latter needs the square-root law, because `Math.sqrt` is a parameter. That the step has length speed / 2 is not stated: it needs sqrt(x) * sqrt(x) == x, a nonlinear fact the proofs cannot use.
- Game.KeyShift: its contract bounds each axis's shift and keeps the player inside. The exact shift for each combination of held arrows is stated by GameProofs.ArrowMovesPlayer, GameProofs.ArrowsAddUp and GameProofs.OppositeArrowsCancel.
- Game.SeekMove: its contract states only when a coordinate may be set and that it stays inside the field. That a step is taken on every axis where it fits, and its value, is stated by GameProofs.SeekStepTaken.
- GameLogic.Nudge: the size of a nudge is not bounded. Nothing is assumed about `atan2`, `cos` and `sin`, so no claim is made that the nudge points away from the other chaser or has length speed / 2.
- Concrete `Math.sqrt`, `Math.atan2`, `Math.cos` and `Math.sin` are left out. Where a proof needs the square root, it assumes only `SqrtLaw`.
- The test that six calls of moveChasers leave two chasers at least 50 apart is left out. It depends on the concrete trigonometry and floating point.
- That a pursuit step brings a chaser closer to the player, and that a pointer step never overshoots the target, are left out. Both need the exact square root, not just `SqrtLaw`.
- Floating point is left out: rounding, NaN and Infinity. The running minimum's starting value Infinity is modelled as "no value yet".
- Game.Step: requires a non-negative speed. The source divides by the distance to the target only after checking that it exceeds the speed, which rules out zero only when the speed is non-negative. Every reachable state has speed at least 2 (GameProofs.MountInv, GameProofs.StepKeepsInv).
- React scheduling is left out: effects, dependency arrays, refs, and when the loop reruns. The model assumes each frame sees the state the previous frame committed.
- Rendering is left out: the canvas drawing and the grass from `modules/grass.ts`. It changes no game state.
- The background-music hook is left out except for its volume clamp: audio playback, pausing, and the user-interaction tracking. So is the `interacted` flag that only feeds that hook.
- Window resizing (the resize listener) is left out. The frame lemmas take the window as part of the state and do not let it change between frames.
- The initial target of (-1, -1) is left out. The mount effect replaces it before the first frame, so `Game.Mount` starts after that effect.
- The random chaser placement is left out: the three positions are parameters of `Game.LoadImages`.
- The asynchronous image loading is left out. Loading is one event, `Game.LoadImages`.
- Key names other than the four arrows are left out. The source stores them as extra properties of the keys record, which the frame never reads, so the model records nothing for them.
- Game.SetKey: a key value `OtherKey("ArrowUp")` built by hand is treated as a non-arrow, while the source would set the arrow. Event names reach the handlers through `Game.KeyOf`, which never produces such a value.
- A touch event without touch points is left out. The model takes the first touch point's coordinates as parameters.
- `game.js` is not part of this model.
