# Kokok Fly: a verified model of the game core

This project models the logic of the Kokok Fly browser game in Dafny and
proves properties of it. The game has two levels. On the easy "city" level
the player holds a button to rise between pairs of buildings. On the hard
"asteroid" level the player taps to jump past asteroids.

The model covers four parts of the game:

- **The level simulation** (`components/game-level.tsx`). The class
  `Stage.GameLevel` has the component's state cells and refs as fields. Each
  handler or effect is a method, and each method is proved to produce the
  state that a function of module `Simulation` describes:
  - input handling;
  - the animation frame `Tick`, which does the timing and throttle, then
    moves the player, moves and scores the obstacles, prunes and escalates
    the speed, checks collisions and spawns new obstacles;
  - the pause toggles, the loop-start effect, the crash timer, the
    game-over report and the reset on a level change.

  `Simulation` is the same run written as a value (`Session`). It holds the
  invariants every reachable run keeps, with lemmas proving that each
  operation preserves them. The pure pieces live in their own modules:
  `Physics` (player step, obstacle motion), `Scoring` (the pass over the
  obstacles, pruning, escalation), `Spawning` (city pairs and asteroid
  bursts) and `Collision` (padded hitboxes and the overlap test).
- **The game shell** (`app/page.tsx`). The class `App.Game` holds the screen
  state, the user, the chosen level, the last score and the saved progress.
  `handleGameOver` is specified by the function `App.AfterGameOver`. The
  screen changes follow `App.Transition`, which offers each event only on
  the screen that renders its button or handler.
- **Vehicle selection** (`components/vehicle-customization.tsx`). A
  selection is saved only when the vehicle is unlocked.
- **The login form** (`components/login-screen.tsx`). The trimmed name must
  have at least two characters.

Modelling conventions:

- Positions, speeds and times are `real`.
- Every `Math.random()` draw, the `Date.now()` clock and the frame timestamp
  are inputs of the operations. Each draw is a real in [0, 1).
- Whether the device is mobile is fixed for the life of a level object.
- A city pair's identifier `pair-<now>` is the number `now`.
- An optional velocity that is absent is 0.0. The source reads these through
  `v || fallback`, which treats 0 and absent alike.
- Inside one frame the source's updates happen in this order:
  1. the player moves;
  2. the obstacles move and score;
  3. collisions are checked against the player and obstacles the frame
     began with;
  4. an obstacle spawns, using the speed the frame began with.

  The first three come from the `setPlayer` and `setObstacles` updaters and
  from the values the `gameLoop` closure captured. The fourth comes from
  the `gameSpeed` value that `generateObstacle` captured.
- On the easy level, the field `scoredPairs` records which city pairs have
  scored so far. It is ghost bookkeeping with no counterpart in the source.
  It is the union of the source's per-frame `passedPairs` sets.

Two behaviours of the code that a reader may not expect:

- A frame in which the player falls off the bottom edge still moves and
  scores the obstacles, checks collisions and spawns. Its points therefore
  count in the final score (`Simulation.TickWork`).
- Speed escalation fires only when the new total is exactly a multiple of 5
  and at most 50. A frame that takes the score from 4 to 6 does not
  escalate.

## Model

| member | source | states |
|---|---|---|
| `Physics.StepMultiplier` | components/game-level.tsx:351-358 | The frame delta is clamped to two nominal frames and measured in nominal frames. A frame that passes the throttle gets a multiplier between 0.8 (1.5 on mobile) and 2. |
| `Physics.StepPlayer` | components/game-level.tsx:386-411 | The height advances by the old velocity times the multiplier, and only then is the lift or gravity added. Above the top edge the player is stopped at 0 with zero velocity. The player falls off exactly when the new height exceeds 615. Otherwise the height stays in [0, 615]. |
| `Physics.RedMove` | components/game-level.tsx:432-453 | A red asteroid moves by its own velocities. Its vertical velocity is reflected and damped by 0.8 when the unclamped height reaches a wall. Its height is clamped into the game area, so an unclamped height past a wall puts it exactly on that wall. A random kick adds (impulse - 0.5) × 8 to the reflected velocity. Nothing else changes. |
| `Physics.Advance` | components/game-level.tsx:420-460 | On mobile, and for city and blue obstacles, the obstacle moves left by exactly speed times multiplier. Red asteroids move freely and purple ones at their own horizontal velocity. Only x, y and the vertical velocity ever change. |
| `Collision.CheckCollision` | components/game-level.tsx:331-338 | Two rectangles collide exactly when they overlap on both axes. Edges that only touch count as a collision. |
| `Collision.CollisionIsSharedPoint` | components/game-level.tsx:331-338 | For proper rectangles, colliding is the same as sharing a point. |
| `Collision.PlayerHitbox` | components/game-level.tsx:497-505 | The player's hitbox is its sprite inset by the player padding (8, or 12 on mobile) on every side. |
| `Collision.ObstacleHitbox` | components/game-level.tsx:510-515 | An obstacle's hitbox is its sprite inset by the obstacle padding (15, or 20 on mobile) on every side. |
| `Collision.PaddingForgives` | components/game-level.tsx:497-517 | Hitboxes meet only when the sprites overlap by at least both paddings together on each axis. |
| `Collision.CollisionCountPositive` | components/game-level.tsx:508-525 | The count of colliding obstacles is positive exactly when some obstacle collides. |
| `Collision.CountCollisions` | components/game-level.tsx:508-525 | The loop over the obstacles counts the colliding ones. The count is positive exactly when some obstacle collides. |
| `Scoring.StepObstacle` | components/game-level.tsx:462-477 | An obstacle becomes passed exactly when it was not passed and its trailing edge is left of the player. A crossing city building is also marked counted. Apart from those flags, the result is the obstacle's motion. |
| `Scoring.Award` | components/game-level.tsx:462-475 | An obstacle earns at most one point, and only when it crosses. A city building earns a point exactly when it crosses, is not counted and its pair is not yet credited in this frame. A point credits the pair. |
| `Scoring.TallyPass` | components/game-level.tsx:416-475 | A pass over n obstacles earns at most n points. What the points and the credited pairs are is stated by `EasyPassCreditsPairs` and `HardPassCountsScorers`. |
| `Scoring.EasyPassCreditsPairs` | components/game-level.tsx:462-471 | On the easy level each point of a pass credits a different pair. The credited pairs are exactly those of the uncounted buildings that cross, so a pair earns at most one point per frame. |
| `Scoring.HardPassCountsScorers` | components/game-level.tsx:472-474 | On the hard level a pass earns one point per crossing point-giving asteroid and credits no pair. |
| `Scoring.Prune` | components/game-level.tsx:479 | The kept obstacles are exactly those whose right edge is still right of x = -100, whatever their score or collision state. |
| `Scoring.PruneAppend` | components/game-level.tsx:479 | The filter keeps order: pruning a concatenation is pruning each part. |
| `Scoring.PruneKeepsOnScreen` | components/game-level.tsx:479 | A list whose obstacles are all on screen is kept whole, duplicates included. |
| `Scoring.Escalate` | components/game-level.tsx:482-491 | The speed changes only when the new total is a multiple of 5 no larger than 50. It then becomes the smaller of speed × 1.05 and the cap, and a speed within [0, cap] never drops nor exceeds the cap. |
| `Spawning.CityPair` | components/game-level.tsx:159-259 | An easy spawn is two buildings at x = 1000, width 180, sharing the pair id. The top one is at y = 0 and the bottom one ends at 700. The gap is at least 180, and exactly 180 when the drawn heights were shrunk. |
| `Spawning.BurstSize` | components/game-level.tsx:261-327 | A burst has 1-2 blue or red asteroids, or 3-6 purple ones. |
| `Spawning.AsteroidY` | components/game-level.tsx:267-271 | An asteroid starts at least 50 px below the top and ends at least 50 px above the bottom. |
| `Spawning.MakeAsteroid` | components/game-level.tsx:261-327 | The i-th asteroid is staggered by i × 200, 180 or 120. Blue asteroids give points and no others do. At a positive speed, red and purple asteroids have a leftward horizontal velocity. |
| `Spawning.Burst` | components/game-level.tsx:260-328 | One weighted category draw (0.4 / 0.6) picks the category. The burst holds its asteroids in loop order. |
| `Simulation.InputSpec` | components/game-level.tsx:139-150 | Input is ignored when the run is stopped or paused. On easy the press state becomes the hold flag. On hard a press sets the jump velocity (-8) and a release changes nothing. The player's position never changes. |
| `Simulation.PlayerPhase` | components/game-level.tsx:386-411 | The player step leaves everything else alone. When the step falls off, the run ends (stopped and over) and the player stays where it was. Otherwise only the player changes, to the step's result. |
| `Simulation.ApplyPass` | components/game-level.tsx:479-494 | After the pass, the obstacles are the pruned result and the score grows by the points. The speed escalates only when points were earned. Nothing else changes. |
| `Simulation.CollisionPhase` | components/game-level.tsx:496-526 | The collision check changes only the running flag, the crash picture and the crash timers. A new crash timer always comes with a stopped run showing the crash picture. |
| `Simulation.SpawnPhase` | components/game-level.tsx:152-329 | Nothing spawns before the level's interval (1800 or 1500 ms) has passed. A spawn records its time and appends the level's new obstacles. |
| `Simulation.Timed` | components/game-level.tsx:343-356 | The frame timing records the frame's time and counts the frame, and changes nothing else. |
| `Simulation.InitialSession` | components/game-level.tsx:55-72 | A mounted run is live (running, not paused, not over, not holding), on its level and device, with no obstacles, score 0, the start player, the level's base speed and zeroed timing. |
| `Simulation.ResetForLevel` | components/game-level.tsx:634-644 | The level reset moves to the new level, empties the board, zeroes the score and the timing, and restores the player and the base speed. The device, pause, hold, run and crash state are kept. |
| `Simulation.StartLoopSpec` | components/game-level.tsx:594-598 | Only the frame timing reference can change, and it is zeroed exactly for a live run. |
| `Simulation.CrashTimerSpec` | components/game-level.tsx:520-523 | A pending crash timer ends the run, hides the crash picture and is used up. Without one nothing changes. The board, clock, player and settings never change. |
| `Simulation.GameOverReport` | components/game-level.tsx:85-89 | A score is reported exactly when the run is over, and it is the run's score. |
| `Simulation.MoveAndSpawn` | components/game-level.tsx:385-528 | A fall off the bottom ends the run with the player left in place. The score grows by exactly the points of the pass over the obstacles the frame began with, so it never drops. A stopped run is never restarted. The spawn clock is stamped exactly when a spawn is due. The level, the device, the input and pause flags and the timing references are kept. |
| `Simulation.MoveAndSpawnCollides` | components/game-level.tsx:496-526 | On a checked frame, an overlap between the hitboxes of the player and an obstacle as the frame began them stops the run and shows the crash picture. |
| `Simulation.TickSpec` | components/game-level.tsx:340-529 | A frame of a stopped, paused or finished run changes nothing. A live frame records its time and counts itself, throttled or not. A live frame under the throttle's threshold does only that. Any frame keeps the settings, never lowers the score and never restarts a stopped run. |
| `Simulation.TickWork` | components/game-level.tsx:340-529 | A live frame past the throttle ends the run when the player falls off, adds exactly the pass's points to the score (also on the frame of a fall), and on a checked frame stops the run when the player and an obstacle as the frame began them overlap. |
| `Simulation.InitialSessionValid` | components/game-level.tsx:55-72 | The freshly mounted run satisfies the invariant. |
| `Simulation.ResetKeepsInv` | components/game-level.tsx:634-644 | The level reset keeps the invariant. |
| `Simulation.InputKeepsInv` | components/game-level.tsx:139-150 | Input keeps the invariant. |
| `Simulation.StepKeepsLockstep` | components/game-level.tsx:420-471 | The two buildings of a pair stay at the same x with the same width and passed flag. |
| `Simulation.PassOrigin` | components/game-level.tsx:419-479 | Every obstacle left after the pass and the pruning is the step of an obstacle that was there. |
| `Simulation.PassKeepsObstaclesValid` | components/game-level.tsx:414-479 | The pass keeps every obstacle's shape and level kind, and keeps pairs in lockstep. |
| `Simulation.PassKeepsPairBook` | components/game-level.tsx:462-475 | On the easy level the score stays equal to the number of credited pairs, so each pair scores at most once over the whole run. A building is passed exactly when its pair is credited. |
| `Simulation.PassKeepsSpeed` | components/game-level.tsx:482-491 | The pass keeps the speed between the level's base and its cap. |
| `Simulation.SpawnPhaseKeepsInv` | components/game-level.tsx:152-329 | A spawn keeps the invariant. A new pair's id is newer than every earlier one, and new asteroids have the shape and kind of their level. |
| `Simulation.CollisionStopsRun` | components/game-level.tsx:496-526 | On a checked frame, a hitbox overlap stops the run, shows the crash picture and starts a crash timer. When no hitboxes overlap, nothing changes. |
| `Simulation.MoveAndSpawnSpeed` | components/game-level.tsx:481-491 | The work of a frame never lowers the speed and never lifts it over the cap. |
| `Simulation.TickSpeedNeverDrops` | components/game-level.tsx:340-494 | From a valid run, the speed never drops across a frame and never exceeds the level's cap. |
| `Simulation.CrashReportsScore` | components/game-level.tsx:518-523 | A pending crash timer ends the run, and the game-over report is then the run's score. |
| `Simulation.PlayerPhaseKeepsInv` | components/game-level.tsx:386-411 | The player step keeps the invariant, including the height bounds. |
| `Simulation.CollisionPhaseKeepsInv` | components/game-level.tsx:496-526 | The collision check keeps the invariant. |
| `Simulation.MoveAndSpawnKeepsInv` | components/game-level.tsx:385-528 | The work of a frame keeps the invariant. |
| `Simulation.TimingKeepsInv` | components/game-level.tsx:343-356 | The frame timing keeps the invariant. |
| `Simulation.TickKeepsInv` | components/game-level.tsx:340-529 | Every frame keeps the invariant: player bounds, speed bounds, stopped when over or crashed, obstacle shapes, pair lockstep and pair bookkeeping. |
| `Stage.PassOne` | components/game-level.tsx:420-477 | The map callback returns the obstacle's step and adds its award to the running total and to `passedPairs`. |
| `Stage.PassOver` | components/game-level.tsx:415-479 | The map over all obstacles returns every step in order, with the pass's total points and credited pairs. |
| `Stage.SpawnBurst` | components/game-level.tsx:261-327 | The spawn loop builds the burst in order. |
| `Stage.GameLevel.constructor` | components/game-level.tsx:55-72 | The mounted component is the initial run and satisfies the invariant. |
| `Stage.GameLevel.HandleInput` | components/game-level.tsx:139-150 | `handleInput` does what `InputSpec` says and keeps the invariant. |
| `Stage.GameLevel.TogglePause` | components/game-level.tsx:549-550 | Escape flips the pause flag and changes nothing else. |
| `Stage.GameLevel.SetPaused` | components/game-level.tsx:648 | The HUD's pause button sets the pause flag and changes nothing else. |
| `Stage.GameLevel.StartLoop` | components/game-level.tsx:594-598 | The loop effect restarts the frame timing of a live run. |
| `Stage.GameLevel.CrashTimerFires` | components/game-level.tsx:520-523 | A pending crash timer hides the crash picture and ends the run. |
| `Stage.GameLevel.ReportGameOver` | components/game-level.tsx:85-89 | The effect reports the score exactly when the run is over. |
| `Stage.GameLevel.ChangeLevel` | components/game-level.tsx:634-644 | The level reset clears the board, the score, the player, the speed and the timing refs. It keeps the run, pause and over flags and keeps the invariant. |
| `Stage.GameLevel.ResetState` | components/game-level.tsx:636-640 | The reset's state setters empty the obstacles, zero the score, restore the player and set the level's base speed. |
| `Stage.GameLevel.ResetRefs` | components/game-level.tsx:641-643 | The reset's refs zero the frame timing, the frame count and the spawn clock. |
| `Stage.GameLevel.MovePlayer` | components/game-level.tsx:386-412 | The player update does what `PlayerPhase` says. |
| `Stage.GameLevel.UpdateObstacles` | components/game-level.tsx:414-494 | The obstacle update does what `ApplyPass` says for the pass the map computes. |
| `Stage.GameLevel.ApplyTally` | components/game-level.tsx:479-491 | The filter and the score and speed setters do what `ApplyPass` says. |
| `Stage.GameLevel.CheckCollisions` | components/game-level.tsx:496-526 | The collision loop does what `CollisionPhase` says. |
| `Stage.GameLevel.GenerateObstacle` | components/game-level.tsx:152-329 | `generateObstacle` does what `SpawnPhase` says. |
| `Stage.GameLevel.AdvanceClock` | components/game-level.tsx:343-356 | The frame timing returns the delta since the previous frame (0 on the first frame) and advances the refs. |
| `Stage.GameLevel.MoveAndSpawnFrame` | components/game-level.tsx:385-528 | A frame past the throttle does what `MoveAndSpawn` says. |
| `Stage.GameLevel.Frame` | components/game-level.tsx:340-361 | `gameLoop` does what `TickSpec` says. |
| `Stage.GameLevel.Tick` | components/game-level.tsx:340-542 | `gameLoop` does what `TickSpec` says and keeps the invariant. |
| `Types.InitialProgress` | app/page.tsx:37-44 | A new player has vehicle 0 of each kind unlocked and selected, and both high scores 0. |
| `App.Unlock` | app/page.tsx:78-83 | An id is pushed only when earned and not already present. The list only grows at its end and never gains duplicates. |
| `App.UnlockForScore` | app/page.tsx:77-83 | After a run, a level's list holds id 1 exactly when the score reached 20 (or it was there), id 2 exactly when it reached 50 (or it was there), and no duplicates. |
| `App.UnlockVehicles` | app/page.tsx:77-83 | The two unlock checks of one level compute `UnlockForScore`. |
| `App.AfterGameOver` | app/page.tsx:64-95 | The played level's high score becomes the maximum of the old one and the final score. The other level's high score and list are unchanged. The played level's list gains ids 1 and 2 at 20 and 50 and only grows. The selections are kept, and well-formed progress stays well-formed. |
| `App.GameOverIdempotent` | app/page.tsx:64-95 | Reporting the same score for the same level twice saves the same progress as reporting it once. |
| `App.UnlockForScoreIdempotent` | app/page.tsx:77-91 | Unlocking for the same score twice is unlocking once. |
| `App.Transition` | app/page.tsx:108-236 | Each screen offers only its own buttons. A run is entered only by choosing a level or by "Play Again". The game-over screen is reached only by the end of a run. Nothing returns to the login screen, which is left only by logging in, and every event changes the screen. |
| `App.Visits` | app/page.tsx:108-236 | A sequence of events visits one screen per event after the starting one, and each screen is the one `Transition` gives for the previous screen and its event. |
| `App.NoRunWithoutLevelChoice` | app/page.tsx:108-236 | Starting away from a run, every sequence of events that reaches a run or the game-over screen passes through the level selection first. |
| `App.Game.constructor` | app/page.tsx:33-44 | The shell starts on the login screen with no user, the easy level, score 0 and the initial progress. |
| `App.Game.HandleLogin` | app/page.tsx:59-62 | Login, offered only on the login screen, remembers the user and opens the menu. |
| `App.Game.ShowScreen` | app/page.tsx:128-196 | The menu buttons, the back buttons and leaving a run, each offered only on the screen that renders it, switch to the screen `Transition` gives. |
| `App.Game.SelectLevel` | app/page.tsx:175-178 | Choosing a level, offered only on the level selection, remembers it and starts a run. |
| `App.Game.PlayAgain` | app/page.tsx:230 | "Play Again", offered only on the game-over screen, starts a run. |
| `App.Game.ResetGame` | app/page.tsx:97-100 | `resetGame`, the game-over screen's "Main Menu" button, zeroes the score and opens the menu. |
| `App.SaveAfterRun` | app/page.tsx:64-91 | The high-score update and the two unlock checks build exactly `AfterGameOver` of the old progress. |
| `App.Game.HandleGameOver` | app/page.tsx:64-95 | `handleGameOver`, called from a run, shows the final score, saves `AfterGameOver` of the old progress, switches to the game-over screen and keeps the progress well-formed. |
| `App.Game.ChooseShip` | components/vehicle-customization.tsx:28-33 | The saved progress changes only its selected ship, and only when the ship is unlocked. |
| `App.Game.ChooseUfo` | components/vehicle-customization.tsx:35-40 | The saved progress changes only its selected UFO, and only when the UFO is unlocked. |
| `Vehicles.SelectShip` | components/vehicle-customization.tsx:28-33 | `onSave` is called exactly when the ship is unlocked. It receives the input progress with only `selectedShip` replaced, so `selectedUfo` is untouched. |
| `Vehicles.SelectUfo` | components/vehicle-customization.tsx:35-40 | `onSave` is called exactly when the UFO is unlocked. It receives the input progress with only `selectedUfo` replaced, so `selectedShip` is untouched. |
| `Login.Trim` | components/login-screen.tsx:23-25 | The trimmed name is empty exactly when the name is all white space. Otherwise it starts and ends with a non-white-space character. |
| `Login.TrimIdempotent` | components/login-screen.tsx:23-36 | Trimming a trimmed name changes nothing. |
| `Login.NameError` | components/login-screen.tsx:20-31 | A name is valid exactly when its trimmed length is at least 2. An empty trimmed name gives "Name is required" and a length of 1 gives "Name must be at least 2 characters". |
| `Login.LoginForm.constructor` | components/login-screen.tsx:17-18 | The form starts with an empty name and no error. |
| `Login.LoginForm.SetName` | components/login-screen.tsx:78 | Typing replaces the name. |
| `Login.LoginForm.ValidateForm` | components/login-screen.tsx:20-31 | `validateForm` replaces the errors with the name's error and returns true exactly when the trimmed length is at least 2. |
| `Login.LoginForm.HandleSubmit` | components/login-screen.tsx:33-38 | `onLogin` is called exactly when validation passes, with the trimmed name and no e-mail. |

## Left out

- Rendering is not modelled: JSX, framer-motion animation, images, CSS layout, the player tilt and the presentation components.
- The trail particles are not modelled. They are cosmetic and use random sizes and `Math.pow`.
- The red asteroid's spin angle and spin speed are not modelled. They only affect drawing.
- Obstacle string ids and image URLs are left out. So is the unused "building" obstacle type.
- `requestAnimationFrame` and `cancelAnimationFrame` scheduling is not modelled. A frame is a call of `Tick`.
- The 1000 ms crash timer is an explicit `CrashTimerFires` call. The timers still pending are a counter.
- `Date.now()`, the frame timestamp and `Math.random()` are parameters. No clock or random source is modelled.
- Mobile detection (`navigator.userAgent`, the window width, the resize listener) is left out. The mobile flag is a constant of the level object.
- The window event-listener wiring is not modelled. It adds nothing beyond `HandleInput(true/false)` and `TogglePause`.
- The unmount cleanup is not modelled, since the object is then discarded.
- The audio hook and `localStorage` persistence are left out. The progress loaded at start-up is not modelled.
- Obstacle positions and speeds are exact reals, not IEEE doubles.
- React's batching and closures are fixed to one sequential order within a frame (see above). A re-render that rebuilds `gameLoop` between frames is taken as seen by the next frame.
- App.Game.HandleGameOver: the saved progress is a fresh value. In the source, `push` on the shallow copy also mutates the previous progress's unlock arrays. That aliasing is not modelled.
- The unlock labels 50 and 100 on the customization screen are display text, not behaviour. The unlock thresholds are those of `handleGameOver` (20 and 50).
- Login.NameError: the length counts Unicode scalar values. JavaScript counts UTF-16 code units, which differ only for characters outside the Basic Multilingual Plane.
- Stage.GameLevel.ReportGameOver: reports the score whenever it is called on a finished run. How often React re-runs the effect (again after a later score change) is not modelled.
- The level selection screen (components/level-select.tsx) is not part of this model. As written, app/page.tsx:174-181 renders it without the `audio` prop, and its click handler (level-select.tsx:18-20) calls `audio.playButtonClickSound()` before the action. Choosing a level or pressing its "back" button would then throw before `onSelectLevel` or `onBack` runs. The model's `Transition` has the edges the shell evidently intends.
