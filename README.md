# Flappy Bird: a verified model of the frame-by-frame game logic

This project is a Dafny model of the simulation core of djsereno/Flappy-Bird, a
pygame clone of Flappy Bird. The repository keeps two versions side by side.
`flappybird/` is the finished game and `package/` an earlier prototype.

Each frame of `dt` milliseconds does the following:

- the bird integrates gravity, clamps its velocity and tilts through `translate`;
- the backdrop and the ground scroll as rings of tiles;
- the pipes move left and leave their group once off screen;
- a new pair of pipes is spawned every `pipe_spacing` pixels of travel, after a warm-up delay;
- passing a bottom pipe scores once;
- a collision ends the game.

Keys and clicks drive the session through the four phases SPLASH, READY, PLAY and
GAMEOVER. They start, restyle and reset games. A six-stage splash sequence fades the
title in and out.

Modules, one per source file:

| module | models |
|---|---|
| `GameFunctions` (game_functions.dfy) | `flappybird/game_functions.py`: input dispatch, `update_world`, collisions, scoring, start, reset, scene change |
| `BirdSprite` (bird.dfy) | `flappybird/bird.py`: the game's bird |
| `ProtoBird` (proto_bird.dfy) | `package/bird.py`: the prototype bird, stepped once per frame without `dt` |
| `HelperFunctions` (helper_functions.dfy) | `flappybird/helper_functions.py`: `clamp`, `translate`, `fade_surface` |
| `ScrollElements` (scroll_element.dfy) | `flappybird/scroll_element.py` and `package/scroll_element.py`, two copies of the same tiling and update |
| `SplashScreen` (splash.dfy) | `flappybird/splash.py` |
| `GameSettings` (settings.dfy) | `flappybird/settings.py`: the phases, the derived constants and the dynamic fields |
| `Pipes` (pipe.dfy) | `package/pipe.py`: pipe geometry, per-frame move and kill |
| `PipeGroups` (pipe_group.dfy) | the pipe sprite group that `game_functions.py` adds to, updates and empties |
| `GameStats` (stats.dfy) | `package/stats.py` |
| `Geometry` (geometry.dfy) | the rectangle type used for the bird and the pipes |

Objects whose fields the game changes in place are classes with `modifies` clauses:

- the bird, the settings and the stats;
- the scroll layers, the splash screen and the surface being faded;
- the pipe group.

Each state-changing method states the whole new state of every object it may modify:
the changed fields and the kept ones. Where it computes something, it is proved against a
specification function (`Scroll`, `AdvanceAll`, `Credited`, `Clamp`, `Translate`,
`FadeComplete`), and the source's promises are proved about that function as lemmas.

The model has no floating point. Positions and velocities are exact reals; times
and alpha values are integers. Python's `int()` on a tile position is modelled as
truncation toward zero (`ScrollElements.Trunc`).

A game pipe is a value record `PipeRec` in a `map<nat, PipeRec>`. The key is the
identity the group hands out when the pipe is added; identities are never reused.
`pipes_cleared` is the set of these identities. The invariant `PipeGroups.Paired`
keeps the pairs whole:

- the bottom member of a pair has an even identity and the top member the next one;
- both members share one column and one gap centre;
- exactly `gap_height` lies between them.

Spawning keeps this invariant, and so does a frame of movement, even though pipes
leave the group.

Two behaviours of the code are easy to miss:

- **Warm-up only before the first game.** `start_delay` is set to 0 only in the
  `Settings` constructor (flappybird/settings.py:111), and `init_dynamic_variables`
  does not reset it. So the warm-up in `update_world` comes only before the first game
  after launch. `GameFunctions.ResetGame` keeps `startDelay`.
- **The bird falls in GAMEOVER too.** flappybird/bird.py:97-113 bobs the bird only in
  SPLASH and READY. In GAMEOVER it keeps falling under gravity until it reaches the
  ground.

## Model

| member | source | states |
|---|---|---|
| `Geometry.CenteredAt` | flappybird/bird.py:117-118 | the rect has the given size and is centred on the given point |
| `Geometry.WithCenterX` | package/pipe.py:57 | setting `centerx` moves the rect sideways to the new centre, keeping its top, width and height |
| `HelperFunctions.Clamp` | flappybird/helper_functions.py:18-21 | for `lo <= hi` the result lies in `[lo, hi]`; below the range it is `lo`, above it `hi`; it is the identity inside the range; an empty range (`hi < lo`) gives `lo` |
| `HelperFunctions.ClampIdempotent` | flappybird/helper_functions.py:21 | clamping an already clamped value changes nothing |
| `HelperFunctions.Translate` | flappybird/helper_functions.py:90-97 | needs `in_max != in_min`; saturates at `out_min` below `in_min` and at `out_max` from `in_max` on (for a reversed input range, always `out_max`); inside the range the output moves linearly with the input |
| `HelperFunctions.TranslateBounded` | flappybird/helper_functions.py:94-97 | for an increasing input range the result lies between `out_min` and `out_max`, whichever order they are in |
| `HelperFunctions.Surface.SetAlpha` | flappybird/helper_functions.py:30 | the surface's alpha becomes the given value |
| `HelperFunctions.Surface.Fade` | flappybird/helper_functions.py:24-32 | returns true and leaves alpha alone exactly when alpha has reached `end_alpha` in the direction of the increment, or the increment is 0; otherwise adds exactly the increment, without capping, and returns false |
| `HelperFunctions.StepsToFadeIsCeiling` | flappybird/helper_functions.py:28-31 | from a distance `d` still to fade, the number of steps that return false is `ceil(d / abs(inc))`, and 0 when already complete |
| `HelperFunctions.FadeCompletesAfterSteps` | flappybird/helper_functions.py:28-32 | repeated steps with a fixed increment report done exactly from `StepsToFade` calls on, so only finitely many report not done |
| `HelperFunctions.StaysComplete` | flappybird/helper_functions.py:28-32 | once a fade is complete, further steps leave alpha where it is |
| `HelperFunctions.AfterFirstCall` | flappybird/helper_functions.py:28-31 | an incomplete step adds the increment, and the remaining steps continue from the new alpha |
| `GameSettings.JumpIsTwiceCap` | flappybird/settings.py:65-66 | the flap speed is twice the velocity cap, and the cap is positive |
| `GameSettings.GapRangeNonEmpty` | flappybird/settings.py:62-74 | the ground is 100 px above the screen bottom, and the gap-centre range `[gap/2 + 50, ground - gap/2 - 50]` is non-empty exactly when the screen is at least 380 px tall |
| `GameSettings.Settings.constructor` | flappybird/settings.py:62-111 | the constants are the derived ones; the phase is SPLASH, overriding the READY that `init_dynamic_variables` set; the warm-up timer, the accumulators and the pipe colour are 0 |
| `GameSettings.Settings.InitDynamicVariables` | flappybird/settings.py:113-119 | phase READY, travel distance and idle time 0; the warm-up timer and the pipe colour are kept |
| `Pipes.PipeRect` | package/pipe.py:39-50 | centred on x with the pipe's width; a top member spans from the screen top to `gap_y - gap/2`, any other member from `gap_y + gap/2` to the screen bottom |
| `Pipes.PairGapIsGapHeight` | package/pipe.py:39-50 | the two members built around one gap centre leave exactly `gap_height` between them |
| `Pipes.Pipe.constructor` | package/pipe.py:30-50 | the left edge is exactly on the screen's right edge; `y` is the gap centre; speed `world_velocity`; the rect is as `PipeRect` gives it; the pipe keeps the given width, gap height and location, and is alive |
| `Pipes.Pipe.Update` | package/pipe.py:52-61 | x and the rect's right edge decrease by exactly `velocity`, and the rect stays centred on x; the pipe leaves its group exactly when its right edge is then left of 0 |
| `PipeGroups.NewPipe` | package/pipe.py:30-50 | a new game pipe: left edge on the screen's right edge, centred on its x, the gap centre as its y, speed `world_velocity`; the top member ends at `g - gap/2`, the bottom one starts at `g + gap/2` and reaches the screen bottom |
| `PipeGroups.Advance` | package/pipe.py:56-57 | a frame of `dt` ms moves x and the right edge left by `velocity * dt`, keeping the rect centred and everything else |
| `PipeGroups.AdvanceAll` | flappybird/game_functions.py:125 | `pipes.update(dt)`: exactly the pipes that are not off screen after advancing remain, each advanced |
| `PipeGroups.AdvancePreservesPaired` | flappybird/game_functions.py:125 | a frame of movement keeps pairs whole: both members of a pair leave together and the gap between them is kept |
| `PipeGroups.PairMovesTogether` | package/pipe.py:56-61 | the two members of a pair have the same right edge, so they stay in the group or leave it together, still framing the gap |
| `PipeGroups.AddPairPreservesPaired` | flappybird/game_functions.py:248-252 | adding the bottom and then the top member around one gap centre under the next two identities keeps pairs whole |
| `PipeGroups.AddPairAddsTwo` | flappybird/game_functions.py:251-252 | a spawn grows the group by exactly two pipes, since the new identities are fresh |
| `PipeGroups.GapLeavesMinPipe` | flappybird/settings.py:70-74 | for a gap centre drawn from the range, the top member is at least 50 px tall, and so is the part of the bottom member above the ground |
| `PipeGroups.PipeGroup.Add` | flappybird/game_functions.py:251-252 | `pipes.add`: the pipe joins under the next identity, which is above every identity present |
| `PipeGroups.PipeGroup.Empty` | flappybird/game_functions.py:269 | `pipes.empty()`: no pipe is left; identities are not reused |
| `PipeGroups.PipeGroup.Update` | flappybird/game_functions.py:125 | the group becomes `AdvanceAll` of the old group, and its pairs stay whole |
| `ScrollElements.Trunc` | flappybird/scroll_element.py:56 | Python's `int()` on a float: floor for non-negative values, ceiling for negative ones |
| `ScrollElements.Shifted` | flappybird/scroll_element.py:54-55 | every x coordinate moves left by the scroll distance |
| `ScrollElements.Lefts` | flappybird/scroll_element.py:56 | each rect's left edge is its tile's x truncated toward zero |
| `ScrollElements.FirstOffscreen` | flappybird/scroll_element.py:59-62 | the index found is the first from the start whose right edge is below 0, or the tile count if there is none |
| `ScrollElements.Scroll` | flappybird/scroll_element.py:50-62 | a scroll step keeps the number of tiles |
| `ScrollElements.ScrollMovesTiles` | flappybird/scroll_element.py:54-62 | the lowest-index tile that scrolled off is placed at its predecessor's right edge (for tile 0, the last tile's, as `rects[-1]` does), with x at that integer; every other tile only moves by the scroll distance, with its truncated rect |
| `ScrollElements.ScrollMovesTile` | flappybird/scroll_element.py:54-62 | the same statement for one tile |
| `ScrollElements.FirstOffscreenIsLowest` | flappybird/scroll_element.py:59-62 | the search with `break` stops exactly at the lowest-index tile whose rect is off screen |
| `ScrollElements.AtMostOneWrapped` | flappybird/scroll_element.py:59-62 | of any two tiles at least one only moved by the scroll distance: at most one tile is repositioned per update |
| `ScrollElements.WrapsLowestScrolledOff` | flappybird/scroll_element.py:60-61 | when tile k is the first off screen, it ends flush against its predecessor, which was not repositioned, and every other tile only moved |
| `ScrollElements.NothingOffNothingWrapped` | flappybird/scroll_element.py:54-62 | when no tile scrolled off, the step is a plain shift with truncated rects |
| `ScrollElements.ScrollElem.constructor` | flappybird/scroll_element.py:29-42 | `screen_width // tile_width + 2` tiles; tile i starts at `i * tile_width`, with its rect there; the first of the given number of scenes, which `ChangeScene` cycles through |
| `ScrollElements.ScrollElem.ChangeScene` | flappybird/scroll_element.py:47-48 | the scene cycles modulo the number of images; no tile moves |
| `ScrollElements.ScrollElem.Update` | flappybird/scroll_element.py:50-62 | the tiles and the rects become exactly the result of `Scroll` by `velocity * dt` on the old x coordinates, whose per-tile meaning `ScrollMovesTiles` states; the scene is kept |
| `SplashScreen.Splash.constructor` | flappybird/splash.py:22-35 | a new splash screen starts at its first stage with a transparent image |
| `SplashScreen.Splash.InitDynamicVariables` | flappybird/splash.py:37-44 | all three timers 0, neither fade done, animating, alpha 0 |
| `SplashScreen.Splash.Update` | flappybird/splash.py:46-66 | exactly the current stage's timer grows by `dt`, or its fade takes one step of plus or minus 10 toward 255 or 0; in the last stage the sequence stops animating; nothing else changes; with `dt >= 0` the stage never goes back |
| `SplashScreen.FinishedMeansAllStagesDone` | flappybird/splash.py:65-66 | the sequence has stopped only after every timer reached its delay and both fades reported completion |
| `GameStats.Stats.constructor` | package/stats.py:21-25 | high score 0, score 0, nothing cleared |
| `GameStats.Stats.InitDynamicVariables` | package/stats.py:27-29 | the score restarts at 0; the high score and the cleared set are kept |
| `GameStats.Stats.IncreaseScore` | flappybird/game_functions.py:242 | one more point; nothing else changes |
| `GameStats.Stats.CheckHighScore` | package/stats.py:31-39 | reports true exactly when the score beats the high score; the high score becomes the larger of the two; the score is unchanged |
| `BirdSprite.Bird.constructor` | flappybird/bird.py:24-54 | physics parameters copied from the settings; the given numbers of colour sheets and animation frames, which `ChangeColor` and `Animate` cycle through; the first colour; the start pose with the image's size |
| `BirdSprite.Bird.InitDynamicVariables` | flappybird/bird.py:56-68 | x = 150, y at the rest height with the rect centred there; velocity, angle, last-flap height, frame and timers 0 |
| `BirdSprite.Bird.Flap` | flappybird/bird.py:70-75 | velocity becomes exactly `-jump_velocity` and the last-flap height the current y; nothing else changes |
| `BirdSprite.Bird.ChangeColor` | flappybird/bird.py:78-81 | the colour cycles modulo the number of sheets, so it stays in range |
| `BirdSprite.Bird.Update` | flappybird/bird.py:85-119 | outside GAMEOVER the animation clock runs; in SPLASH and READY the bird bobs, keeping its velocity; in PLAY and GAMEOVER above the ground it integrates, with the velocity within the cap and the angle in `[-90, 20]`; on or below the ground velocity, y and angle are kept; the rect is recentred on the bird |
| `BirdSprite.Bird.Animate` | flappybird/bird.py:89-93 | the clock gains `dt`; past 75 ms it restarts at 0 and the frame advances modulo the frame count |
| `BirdSprite.Bird.Bob` | flappybird/bird.py:97-101 | the bob clock wraps at 3000 ms; y is `y_0 + 50 sin`, within 50 px of the rest height; the angle is `-45 cos`; the velocity is untouched |
| `BirdSprite.Bird.Fall` | flappybird/bird.py:107-113 | the velocity becomes `clamp(v + accel * dt, -cap, cap)`, so it is within the cap even right after a flap set it to twice the cap; then y gains `velocity * dt`; the angle is `translate(y, prev, prev + 150, 20, -90)` and lies in `[-90, 20]` |
| `BirdSprite.Bird.BobBounded` | flappybird/bird.py:100 | the bob height stays within the amplitude of the rest height |
| `ProtoBird.Bird.constructor` | package/bird.py:21-39 | x = 150, y and the rect's centre at the screen centre, at rest, with the given gravity, cap and flap speed |
| `ProtoBird.Bird.Flap` | package/bird.py:41-45 | velocity becomes exactly `-jump_velocity` |
| `ProtoBird.Bird.Update` | package/bird.py:47-57 | once per frame, without `dt`: velocity `clamp(v + accel, -cap, cap)`, within the cap when the cap is non-negative; y gains the new velocity and the rect's centre follows it |
| `GameFunctions.CreateNewPipes` | flappybird/game_functions.py:245-252 | exactly a bottom member (location 0) and a top member (location 1) around one gap centre from `[gap_y_min, gap_y_max]` join under the next two identities; pairs stay whole |
| `GameFunctions.StartGame` | flappybird/game_functions.py:255-259 | the phase becomes PLAY and one pair is added; the timers, the accumulator and the pipe colour are kept |
| `GameFunctions.ResetGame` | flappybird/game_functions.py:262-269 | phase READY, travel distance 0, score 0, bird in its start pose, no pipes; the high score, the cleared set, the warm-up timer, the colours and the bird's image size are kept |
| `GameFunctions.ChangeWorldScene` | flappybird/game_functions.py:195-202 | the pipe colour cycles modulo the number of pipe colours and the backdrop moves to its next scene; no tile moves and the phase is kept |
| `GameFunctions.UpdateWorld` | flappybird/game_functions.py:108-131 | in GAMEOVER nothing moves; otherwise both layers scroll as `Scroll` says; outside PLAY the settings and the pipes are untouched; in PLAY the step is as `PlayFrame` says |
| `GameFunctions.PlayFrame` | flappybird/game_functions.py:119-131 | during the warm-up only the warm-up timer grows, by `dt`, and no pipe moves or spawns; after it the step is as `MovePipes` says |
| `GameFunctions.MovePipes` | flappybird/game_functions.py:125-131 | the pipes advance (`AdvanceAll`) and travel grows by `world_velocity * dt`; past `pipe_spacing` exactly one new pair is added and travel restarts at 0; otherwise travel keeps the sum |
| `GameFunctions.CheckCollisions` | flappybird/game_functions.py:209-230 | on a pipe hit (given), a rect below the ground or above the screen top, the bird is snapped to its rect's centre with velocity 0 and the phase becomes GAMEOVER; without a hit nothing changes |
| `GameFunctions.Credited` | flappybird/game_functions.py:237-242 | every credited pipe is a passed bottom member not cleared before, and every passed bottom member is credited or was already cleared |
| `GameFunctions.CheckScore` | flappybird/game_functions.py:233-242 | the cleared set gains exactly the credited pipes and the score grows by their number; the high score is kept; cleared identities stay ones the group handed out |
| `GameFunctions.CreditPassed` | flappybird/game_functions.py:236-242 | the loop over the pipes credits exactly `Credited`, one point each |
| `GameFunctions.CreditOne` | flappybird/game_functions.py:238-242 | one pipe is credited, entering the cleared set with one point, exactly when it is a passed bottom member not yet cleared |
| `GameFunctions.CreditedSoFarIsCredited` | flappybird/game_functions.py:237-242 | once every pipe has been looked at, what the pass credited is `Credited` |
| `GameFunctions.ScoringIsIdempotent` | flappybird/game_functions.py:237-242 | a second pass with unchanged positions credits nothing |
| `GameFunctions.OnePointPerPair` | flappybird/game_functions.py:238-239 | only the bottom member of a pair can be credited, never its partner |
| `GameFunctions.CheckKeydownEvents` | flappybird/game_functions.py:84-100 | Q asks to quit; SPACE in READY starts the game as `StartGame` does and flaps in the same press; SPACE in PLAY flaps; anything else changes nothing |
| `GameFunctions.ClickButtons` | flappybird/game_functions.py:73-81 | a left click on an enabled new-game button under the pointer in GAMEOVER resets the game; otherwise nothing changes |
| `GameFunctions.ClickMenu` | flappybird/game_functions.py:56-68 | in SPLASH and READY: a left click while READY starts the game as `StartGame` does; otherwise a right click changes only the bird's colour, otherwise a middle click only the pipe colour and the backdrop scene; in other phases nothing changes |
| `GameFunctions.CheckClickEvents` | flappybird/game_functions.py:49-81 | a left click in READY starts the game as `StartGame` does and flaps; otherwise in SPLASH and READY a right click only recolours the bird and a middle click only changes the pipe colour and the backdrop scene; in PLAY a left click flaps and any other click does nothing; in GAMEOVER only the new-game button acts, with a full reset |
| `GameFunctions.CountIdleTime` | flappybird/game_functions.py:153-156 | in READY the idle timer grows by `dt` until it has reached the get-ready delay; nothing else changes |

The prototype's `package/scroll_element.py:36-54` has the same layout and update as
the game's, with a single image. It is the `ScrollElem` above with one scene.

## Left out

- Rendering and sound. This covers `draw` apart from its idle timer, every `blitme`, the fades of the overlay images in `draw`, all sound effects, volume setting and asset loading. They are calls into pygame with no effect on the simulation.
- Pixel-mask collision. `pg.sprite.spritecollideany(..., collide_mask)` is the input flag `collided` of `CheckCollisions`.
- Rotated sprite sizes. The size of the rotated bird image is an input to `Bird.Update`.
- Random numbers. The gap centre that `random.randint` draws is the input `g`. It is required to lie in `[gap_y_min, gap_y_max]` only when a spawn happens.
- The event loop and frame clock. `check_events`, `pg.event.get`, `pg.mouse` and `sys.exit` are left out. Pressed mouse buttons, the key, the buttons under the pointer and `dt` are inputs. Quitting on Q is a returned flag.
- BirdSprite.Bird.Bob: the sine and cosine of the bob phase `idle_time / idle_period * 2 * pi` are inputs in `[-1, 1]`. The model does not tie them to the bob clock, because there are no transcendental functions.
- BirdSprite.Bird.Update: the rect is a real-valued rect of the given rotated size, centred on the bird. pygame's integer rects and the rotation itself are not modelled.
- Integer rects of the pipes. pygame rounds pipe rects to whole pixels; here they are exact reals. The scrolling tiles are the exception: they keep integer rect edges with truncation toward zero.
- HelperFunctions.Surface.SetAlpha: pygame clamps alpha to `[0, 255]`; the model stores the value as given.
- flappybird/pipe.py is not part of this model. A game pipe takes its geometry from `package/pipe.py`. It moves `velocity * dt` per frame and leaves the group when its right edge is left of 0. Its location is 0 for the bottom member and 1 for the top one.
- Pipe sprites. The game's pipes are value records keyed by identity. The sprite objects are not modelled, nor is the group's iteration order. `check_score`'s loop is proved for any order.
- flappybird/stats.py is not part of this model. `Stats` follows `package/stats.py`. `increase_score` is one more point. `prep_score_plaque` and the plaque animation (`stats.animating`) are left out.
- The buttons. The flappybird button module is not part of this model. `package/button.py` only draws; a button is the record of what a click needs (hovered, action, enabled). `Button.init_dynamic_variables` in `reset_game` is left out.
- The SPLASH to READY transition. It happens in the main module, which is not part of this model.
- GameSettings.Settings.InitDynamicVariables: the alpha resets of the overlay images and the dimmer, and the music restart, are rendering and sound and are left out.
- Gap-free tiling. The model does not prove that the tiles stay edge to edge after scrolling: truncation can open a 1 px seam per repositioning.
- The prototype's own event loop and frames (`package/flappybird.py`, `package/game_functions.py`) and the constants of `package/settings.py` are left out. The prototype's `clamp` is the helper's `Clamp`.
- Pipes.Pipe.constructor: requires both member heights to be non-negative, where pygame's `Surface` would raise an error for a negative size; that error path is not modelled. In the game a gap centre drawn from `[gap_y_min, gap_y_max]` always meets it (`PipeGroups.GapLeavesMinPipe`).
- Statement order. `StartGame` adds the pipes before it sets the phase. `MovePipes` computes travel in a local before storing it. Both steps touch different objects, so the result is the same as the source's order.
- Lists as fields. The tile coordinates and rects are `seq` fields that `Update` reassigns element by element. Python updates its lists in place, but no other object holds references to them, so nothing else can observe the difference.
