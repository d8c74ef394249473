# Arkanoid in Dafny

A model of the simulation core of a small pygame brick-breaker ("PyGame
Arkanoid"). Everything the game does between two frames is integer
arithmetic on pygame rectangles, and that is what is modelled here:

- the **paddle**: arrow-key movement with clamping to the screen, the eight
  power-up countdown timers, the center-preserving resize for grow and wide,
  and reset;
- the **ball**: glue, slow and fast states, per-frame motion, reflection off
  walls and paddle, and the lost-ball signal;
- **power-ups** and **laser shots**: vertical motion and the closed table of
  power-up kinds with their messages;
- the **level generator**: a function from a level number to its brick wall;
- the **session**: the main loop's state as a `Session` object. This is the
  score, lives, level, game state, message with its countdown, and the brick,
  power-up and laser lists. One frame of the loop is `Session.Tick`.

Files:

- `geometry.dfy` (module `Geometry`): pygame's `Rect` with floor-division
  centers and strict positive-area `colliderect`.
- `game_objects.dfy` (module `GameObjects`): `Paddle` and `Ball` are classes
  whose methods update their fields in place. Bricks, power-ups and laser
  shots are values.
- `levels.dfy` (module `Levels`): `Wall(level)` is the specification of a
  level's wall. `CreateBrickWall` and `CreateBrickWallLegacy` are the nested
  loops that build it, proved equal to it. Lemmas give the wall sizes (40,
  56, 30, 30, 46), the cells that hold bricks, and the bounds.
- `session.dfy` (module `Arkanoid`): the `Session` class and its per-frame
  steps. Value functions (`FirstOverlap`, `Fire`, `Shoot`, `Collect`, `Survivors`,
  `Drop`) specify what the list-walking loops compute.

Inputs the program reads from the keyboard or the `random` module become
parameters:

- An `Input` gives the space and M key presses and the arrow keys held.
- A `Chance` gives the launch direction of each ball reset or launch, the
  roll that decides a power-up drop, and the kind drawn.

## Model

| member | source | states |
|---|---|---|
| Geometry.Rect.WithCenterX | work/game_objects.py:128-131 | assigning `centerx` puts the floor-division center exactly at the value given and keeps the row and size |
| Geometry.Rect.Resized | work/game_objects.py:169-172 | the resize sets the new width and keeps `centerx` and the row |
| Geometry.ShrinkStaysInside | work/game_objects.py:199-206 | a center-preserving shrink keeps a rectangle inside any horizontal span it was inside |
| Geometry.ResizedTwice | work/game_objects.py:166-206 | resizing twice to the normal width equals resizing once, so grow and wide expiring on the same frame give one resize |
| Geometry.CollidesSharePoint | work/main.py:340 | `colliderect` on rectangles of positive size: they collide exactly when some pixel lies inside both, right and bottom edges excluded |
| GameObjects.Message | work/game_objects.py:375-384 | each kind's table message is one of the eight messages and reads back as that kind, so no two kinds share one |
| GameObjects.Timers.Set | work/game_objects.py:122-159 | setting one kind's timer changes that timer to the value and no other |
| GameObjects.Countdown | work/game_objects.py:161-211 | every positive timer loses exactly one tick and every zero timer stays zero |
| GameObjects.Steer | work/game_objects.py:68-73 | both arrow keys apply, so holding both cancels out; one key moves 7 pixels its way |
| GameObjects.Clamped | work/game_objects.py:75-79 | the boundary check keeps the row and size; a paddle no wider than the screen ends inside it; one already inside is untouched |
| GameObjects.Paddle.constructor | work/game_objects.py:15-57 | width 100, height 10, at the bottom center 30 pixels above the screen edge, all timers and capabilities off |
| GameObjects.Paddle.Update | work/game_objects.py:59-93 | move and clamp, then the countdowns: the exact new rectangle (resized to 100 about the center when grow or wide expires now), timers and laser, glue and shield flags; the paddle ends inside the screen for every left/right combination |
| GameObjects.Paddle.Move | work/game_objects.py:68-79 | the moved and clamped rectangle is `Clamped` of the steered one |
| GameObjects.Paddle.Reset | work/game_objects.py:104-119 | timers zeroed, capabilities off, width 100; the left edge comes from the width before the reset and the row stays |
| GameObjects.Paddle.ActivatePowerUp | work/game_objects.py:122-159 | the kind's timer becomes the duration; grow and wide resize to 150 and 200 about the center only when their timer was zero; laser, glue and shield switch their flag on |
| GameObjects.Paddle.UpdatePowerUps | work/game_objects.py:161-211 | timers count down; grow or wide reaching zero restores width 100 about the center; laser, glue or shield reaching zero clears its flag; slow, multi and fast have no effect |
| GameObjects.Paddle.CountDown | work/game_objects.py:166-211 | one kind's countdown block: decrement if running, and that kind's expiry effect exactly when it reaches zero |
| GameObjects.Halved | work/game_objects.py:333-334 | Python floor halving: 2r <= v < 2r + 2 |
| GameObjects.Boosted | work/game_objects.py:342-343 | `int(v * 1.5)`: the product truncated toward zero, for either sign |
| GameObjects.LaunchSpeed | work/game_objects.py:252 | the launch speed is 6 or -6, positive exactly for a rightward draw |
| GameObjects.SlowRoundTrip | work/game_objects.py:281-286 | halving and then doubling on expiry gives back the even part: odd speeds lose their odd unit (7 becomes 6, -7 becomes -8) |
| GameObjects.Ball.constructor | work/game_objects.py:215-243 | a 20 by 20 ball at the screen center launched upward, neither glued, slowed nor fast |
| GameObjects.Ball.Reset | work/game_objects.py:245-257 | centered, speed (plus or minus 6, -6), not glued or slowed; the fast state survives |
| GameObjects.Ball.Update | work/game_objects.py:259-327 | glued (`GluedStep`): it follows the paddle and launches on demand, always in play. Free (`FreeStep`): slow countdown, move, top and side reflections, paddle reflection or glue only when moving down, and 'lost' once below the screen, in that order, with the event reported |
| GameObjects.Ball.BounceOffWalls | work/game_objects.py:293-304 | the vertical speed flips at the top wall, the horizontal speed flips at a side wall, and a wall event exactly when either happened |
| GameObjects.Ball.MeetPaddle | work/game_objects.py:307-320 | only a ball moving down onto the paddle meets it; it then sticks with glue and bounces up without |
| GameObjects.Ball.LostIffFallsOut | work/game_objects.py:323-325 | a tick reports the ball lost exactly when it was free and its next move, at the speed the slow timer leaves, takes its top below the screen |
| GameObjects.Ball.CountDownSlow | work/game_objects.py:281-286 | the slow timer counts down and on expiry both speeds double and the slow state ends |
| GameObjects.Ball.ApplySlow | work/game_objects.py:330-336 | a no-op when already slowed; otherwise both speeds are floor-halved and the 600-frame slow timer starts |
| GameObjects.Ball.ApplyFast | work/game_objects.py:339-345 | a no-op when already fast; otherwise both speeds become `int(v * 1.5)`, and the fast state is never cleared |
| GameObjects.PowerUp.Fallen | work/game_objects.py:400-405 | a power-up falls 3 pixels a frame and keeps its kind |
| GameObjects.LaserShot.Risen | work/game_objects.py:431-435 | a laser shot rises 8 pixels a frame |
| GameObjects.NewPowerUp | work/game_objects.py:386-395 | a new power-up is a 30 by 15 box with its top-left corner at the given point, of the given kind |
| GameObjects.NewLaser | work/game_objects.py:421-428 | a new laser shot is a 5 by 15 box with its top-left corner at the given point |
| Levels.BrickPlacement | work/main.py:103-108 | the brick of a cell is 75 by 20 at x = col (75 + 5) + 5, y = row (20 + 5) + 50, coloured by its row modulo the four colours |
| Levels.CellOfBrickAt | work/main.py:103-108 | a brick's position reads back as its row and column, so distinct cells give distinct bricks |
| Levels.WallMembers | work/main.py:91-174 | a brick is in a level's wall exactly when it is the brick of a cell of that level's layout |
| Levels.LaidMembers | work/main.py:123-129 | a row walk keeps exactly the cells the layout marks |
| Levels.GridMembers | work/main.py:103-108 | the full grid walk visits every cell's brick of the first rows and nothing else |
| Levels.GridHas | work/main.py:103-108 | the grid of the first rows holds the brick of each of their cells |
| Levels.GridOnly | work/main.py:103-108 | every brick of the grid is the brick of one of its cells |
| Levels.WallInBounds | work/main.py:103-108 | every generated brick is 75 by 20 at x = 80 col + 5, y = 25 row + 50, coloured by its row, with 5 <= x and x + 75 <= 800 |
| Levels.PyramidSixthRowEmpty | work/main.py:135-139 | the pyramid's sixth row is empty because it starts and ends at column 5 |
| Levels.Wall | work/main.py:91-174 | the wall of a level: a level other than 1 to 5 has no bricks (its membership, sizes and bounds are the lemmas below) |
| Levels.WallSizes | work/main.py:91-174 | levels 1 to 5 have 40, 56, 30, 30 and 46 bricks |
| Levels.LaidAppend | work/main.py:91-174 | laying two runs of cells one after the other equals laying them together |
| Levels.FullRowCount | work/main.py:102-104 | the first c columns of a full row hold c bricks |
| Levels.PyramidRowCount | work/main.py:134-137 | the first c columns of pyramid row r hold the columns from r up to 10 - r |
| Levels.CheckerRowCount | work/main.py:146-148 | of any two neighbouring cells of a checkerboard row exactly one holds a brick, so the first 2k columns hold k bricks |
| Levels.CreateBrickWall | work/main.py:91-174 | the nested loops build exactly `Wall(level)`, row by row and left to right |
| Levels.LayRow | work/main.py:124-129 | one row of the inner loop appends that row's layout cells after the rows above |
| Levels.LayBrick | work/main.py:125-129 | one cell: its brick is appended exactly when the layout keeps it |
| Levels.CreateBrickWallLegacy | work/main.py:178-196 | the legacy generator builds exactly `Wall(1)`, the level-1 wall |
| Arkanoid.RemoveAt | work/main.py:329 | removing one element leaves one element fewer |
| Arkanoid.RemoveAtKeeps | work/main.py:329 | the elements before and after the removed one are kept in order, and the multiset loses exactly that one element |
| Arkanoid.FirstOverlap | work/main.py:311-312 | an index of the brick list, or -1 |
| Arkanoid.FirstOverlapHits | work/main.py:311-312 | the index found overlaps the rectangle and no brick before it does; with -1 no brick overlaps |
| Arkanoid.FirstOverlapIsFirst | work/main.py:311-312 | the first overlapping index, or -1 when none overlaps, is the only value with that description: it is `FirstOverlap` |
| Arkanoid.FindHit | work/main.py:311-331 | the scan that stops at the first overlapping brick returns `FirstOverlap` |
| Arkanoid.Fire | work/main.py:361-380 | one shot scores at most one hit, a shot that hits is gone, and each hit takes exactly one brick away |
| Arkanoid.FireBounds | work/main.py:361-380 | a shot that flies on is the risen shot, still on screen; a miss leaves the bricks alone; a hit only takes bricks out |
| Arkanoid.ShootBounds | work/main.py:361-380 | a frame of shots never adds bricks, keeps no more shots than were fired, keeps only shots still on screen, and leaves the wall alone when nothing is hit |
| Arkanoid.Shoot | work/main.py:361-380 | a frame of shots, each meeting the bricks the earlier ones left: every brick taken away is counted as a hit |
| Arkanoid.FireShot | work/main.py:362-380 | one iteration of the laser loop computes `Fire` |
| Arkanoid.ShootAll | work/main.py:361-380 | the laser loop over the snapshot computes `Shoot`, each shot meeting the bricks the earlier ones left |
| Arkanoid.PadCatch | work/game_objects.py:122-159 | catching a paddle kind starts its timer at 600; grow and wide resize to 150 and 200 about the center only when their timer was zero; the center and row never move; slow, fast and multi leave the paddle alone |
| Arkanoid.Collect | work/main.py:334-358 | the power-ups of a frame in list order, each meeting the paddle the earlier catches left: one catch flag per power-up, no more kinds caught than power-ups, the paddle's center and row kept |
| Arkanoid.CollectStep | work/main.py:334-358 | one more power-up is one more `Catch` against the paddle, ball and message as they stand |
| Arkanoid.CollectEach | work/main.py:334-358 | each power-up is caught exactly when, after falling, it is still on screen and overlaps the paddle exactly as the catches before it left it |
| Arkanoid.CollectMessage | work/main.py:343-358 | after the frame the last caught power-up's message shows for 120 frames ("MULTI-BALL (Coming Soon!)" for multi); with no catch the message and its timer are as they were |
| Arkanoid.CollectTimers | work/main.py:334-358 | after the frame every paddle kind caught has its timer at 600 and every other timer is as it was |
| Arkanoid.Survivors | work/main.py:334-358 | no more power-ups are left than were falling |
| Arkanoid.SurvivorsBounds | work/main.py:334-358 | the power-ups left are all on screen; with no catch and none falling off, none is lost |
| Arkanoid.SurvivorsStep | work/main.py:334-358 | the next power-up joins the survivors exactly when it was not caught and is still on screen |
| Arkanoid.DigitChar | work/main.py:393 | a decimal digit character with the digit's value |
| Arkanoid.NatToString | work/main.py:393 | the numeral is non-empty, all digits, without a leading zero |
| Arkanoid.NumeralOfNatToString | work/main.py:393 | reading the numeral back gives the number |
| Arkanoid.LevelMessage | work/main.py:393 | the banner has at least eight characters |
| Arkanoid.LevelMessageReads | work/main.py:393 | "LEVEL ", the digits that read back as the level, "!" |
| Arkanoid.Drop | work/main.py:321-324 | a roll below 0.2 drops one power-up of the drawn kind with its top-left corner at the brick's center; otherwise nothing |
| Arkanoid.Session.constructor | work/main.py:83-220 | the program starts on the title screen with level 1's wall, score 0, three lives, nothing falling, no message and sound on; the paddle 100 by 10 at (350, 570) with no power-up; the ball at the screen center launched upward in the drawn direction, neither glued, slowed nor fast |
| Arkanoid.Session.Tick | work/main.py:229-407 | one frame: the space and M keys, the play step only while playing, then the message countdown. Title without space stays; title with space plays level 1; game over or victory with space gives a fresh game on the title screen, and without space changes only the message and sound; off play without space the paddle and ball stay put; play keeps the score from falling, loses at most one life, and ends only on the last life or the last level |
| Arkanoid.Session.HandleKeys | work/main.py:238-278 | space, then M: title without space stays, title with space starts a fresh game, game over or victory with space returns to a fresh title screen, otherwise only the message and sound change; during play only the message, sound and shots change; without space the paddle and ball stay put |
| Arkanoid.Session.Restart | work/main.py:389-390 | ball and paddle reset: the ball centered, launched upward in the drawn direction, unglued and unslowed with its fast state kept; the paddle 100 wide with its left edge from its width before, its row kept, no timer or capability |
| Arkanoid.Session.PressSpace | work/main.py:243-273 | title to playing with nothing else changed; game over or victory to a fresh level-1 game on the title screen with ball and paddle exactly as `Restart` leaves them; while playing, exactly the cannon shots appended |
| Arkanoid.Session.Cannons | work/main.py:269-272 | two shots with left edges at the paddle center minus and plus 30, tops at the paddle top, exactly when the paddle has the laser |
| Arkanoid.Session.ToggleMute | work/main.py:275-278 | sound flips, and the message says its new state for 120 frames |
| Arkanoid.Session.PlayingStep | work/main.py:281-403 | paddle and ball, bricks, power-ups, lasers, level check; never back to the title; score never falls; a life is lost exactly when the ball started the frame falling out; game over only at zero lives; victory only after the last level; a level change brings the next wall with nothing falling; with more than one life and enough bricks play continues on the same level |
| Arkanoid.Session.MoveAndServe | work/main.py:283-306 | only lives and state change in the record: a life is lost exactly when the ball started free and falling out (never when glued), and the game is over only at zero lives |
| Arkanoid.Session.Move | work/main.py:283-288 | the paddle takes exactly `Paddle.Update`'s step (steered, clamped, resized on a grow or wide expiry, timers counted down, expired flags cleared) and ends inside the screen; the ball takes exactly the tick `Ball.Update` describes against the moved paddle; 'lost' exactly when the ball started falling out |
| Arkanoid.Session.Collide | work/main.py:311-380 | state, lives and level unchanged; the score never falls; at most one brick to the ball and one per shot |
| Arkanoid.Session.LoseBall | work/main.py:297-306 | one life fewer; at zero the game is over and nothing else changes; otherwise ball and paddle exactly as `Restart` leaves them, and the record otherwise kept |
| Arkanoid.Session.BallVsBricks | work/main.py:311-331 | with no overlap nothing changes; otherwise exactly the first overlapping brick goes, the score rises by 10, the vertical speed flips, and the roll decides the drop |
| Arkanoid.Session.BreakBrick | work/main.py:312-331 | the given brick goes and the others stay in order, the score rises by 10, the vertical speed flips, and a roll below the drop chance leaves a power-up at the brick's center |
| Arkanoid.Session.CollectPowerUps | work/main.py:334-358 | paddle, ball, message and timer become what `Collect` computes from the paddle, ball and message at the start of the loop; the list becomes the survivors; nothing else in the record changes |
| Arkanoid.Session.CatchPowerUp | work/main.py:337-358 | caught exactly when on screen after falling and overlapping the paddle; paddle, ball, message and timer become `Catch`'s, so a catch applies its effect and a miss changes nothing |
| Arkanoid.Session.ApplyPowerUp | work/main.py:343-358 | the paddle becomes `PadCatch`'s (timer 600, grow and wide resize), slow and fast halve or boost the ball's speeds unless already active, laser, glue and shield switch their flag on, and the message is the kind's ("MULTI-BALL (Coming Soon!)" for multi) for 120 frames |
| Arkanoid.Session.UpdateLasers | work/main.py:361-380 | lasers and bricks become what `Shoot` leaves, and the score rises by 10 per hit |
| Arkanoid.Session.CheckCleared | work/main.py:383-400 | with bricks left nothing changes; a cleared wall below level 5 gives exactly the next level (its wall, the bonus, the announcement, nothing falling, ball and paddle as `Restart` leaves them, everything else kept); at level 5 victory and nothing else |
| Arkanoid.Session.ClearLevel | work/main.py:384-400 | below level 5 exactly the next level as `NextLevel` gives it, everything else kept; at level 5 victory and nothing else; lives kept and the score never falls |
| Arkanoid.Session.NextLevel | work/main.py:385-396 | next level and its wall, score plus 100 times the new level, "LEVEL n!" for 180 frames, no power-ups or lasers, and ball and paddle exactly as `Restart` leaves them |
| Arkanoid.Session.EnterLevel | work/main.py:387-397 | the record of the next level: its wall, the bonus, the announcement for 180 frames, nothing falling or rising, and nothing else changed |
| Arkanoid.Session.CountDownMessage | work/main.py:406-407 | the message timer falls by one while positive and never below zero |

## Left out

- Particles and fireworks, and every spawn and update of them. They use
  floating-point trigonometry and have no effect on the game.
- Drawing, fonts and the render section.
- Sound. `SoundManager` is reduced to the `soundOn` flag the M key flips;
  playing a sound is a no-op.
- Event polling, `pygame.key.get_pressed`, `sys.exit` and the frame clock.
  The keys arrive as an `Input` with one space press and one M press per
  frame at most. Several presses of the same key within one frame are not
  modelled.
- The `random` module. Its outcomes arrive as a `Chance`; the 20 % and 30 %
  distributions are not modelled.
- The colours and glyphs of the power-up table. Only the kinds and their
  messages are kept.
- The paddle's single-timer power-up branch (work/game_objects.py:82-90).
  Nothing ever switches `power_up_active` on, so `Paddle.Valid` keeps it off
  and the branch is never taken.
- The paddle's `width` attribute is always equal to `rect.width`, so it is
  folded into `rect.w`.
- The main loop's global variables are grouped into one `Game` record. The
  paddle and ball stay objects updated in place.
- `create_brick_wall` has a separate pair of loops for each level. The model
  uses one loop shape driven by the level's layout table, which builds the
  same bricks in the same order.
- GameObjects.Paddle.ActivatePowerUp: requires `duration > 0`. The program
  only ever calls it with the default 600; a zero duration would leave a
  resized paddle with a stopped timer.
- Arkanoid.Session.PressSpace: the two laser shots are appended as one
  two-element list rather than by two `append` calls. The resulting list is
  the same.
- Arkanoid.Session.Tick: it states the transitions, play's invariants and
  that the paddle and ball stay put off play without space. It does not
  state the exact outcome of a playing frame; neither does `PlayingStep`
  (below).
- Arkanoid.Session.PlayingStep: states only what a frame of play keeps or
  bounds (score, lives, state, level, the next wall). The exact new
  bricks, power-ups, lasers, ball and paddle are stated only step by step,
  by `Move`, `BallVsBricks`, `CollectPowerUps`, `UpdateLasers` and
  `NextLevel`.
- Arkanoid.Session.HandleKeys: states each state's key outcome as a
  summary (fresh game, kept record fields). The exact effect of a key is
  the contract of `PressSpace` and `ToggleMute`.
- Arkanoid.Session.Collide and Arkanoid.Session.MoveAndServe summarise their
  steps for `PlayingStep`. The exact effects are the contracts of the steps
  they call (`Move`, `LoseBall`, `BallVsBricks`, `CollectPowerUps`,
  `UpdateLasers`).
- The ball's `apply_slow` uses Python's floor division `//`. Negative odd
  speeds therefore round away from zero (-7 becomes -4), and the model does
  the same.
