# Santa Platformer: the simulation core in Dafny

This project models the per-tick simulation of the Santa Platformer game. A
player runs and jumps through hand-authored levels. They collect presents and
time-limited powerups, avoid patrolling enemies and reach the goal tree once
every present is collected, while a camera follows them.

The model covers these parts of the game, file by file:

- `common.dfy` holds Option, clamping helpers, truncation of a percentage,
  and Python's `str(n)` and `int(s)` as far as level loading uses them.
- `geometry.dfy` models `pygame.Rect`: integer x, y, width and height, the
  `right` and `bottom` setters, and `colliderect` as strict overlap, so
  shared edges do not collide. It also holds the fixed-point scale (SCALE =
  1000, thousandths of a pixel) for the quantities the game keeps as floats,
  and `int()` as truncation toward zero.
- `constants.dfy` holds the physics constants in fixed point, the powerup
  durations and the game states.
- `settings.dfy` holds the difficulty presets, `Settings` construction and
  `apply_difficulty`, and the key-name lookup of `get_key`.
- `enemy.dfy` models enemy patrol: move, clamp into the patrol range, turn
  on overshoot.
- `camera.dfy` models the follow camera and its world-to-screen
  translations.
- `player.dfy` models the `Player` class as a Dafny class, including
  `can_jump`, `is_invincible` (the predicate `IsInvincible`), the powerup
  timers, respawn and the walk animation.
- `collision.dfy` models the horizontal and vertical resolvers and the clamp
  to the level. Each resolver is a method that loops over the platform list
  in place, and each is proved equal to a fold over that list. The vertical
  fold is also proved equal to the rule "the first overlapped platform in
  list order decides".
- `level.dfy` models campaign validation with its fallback and the
  `LevelManager`:
  - loading a level's lists from its record;
  - checkpoints and scripted events that fire once;
  - event effects, the story registry and level progression.
- `game.dfy` models the PLAYING branch of the main loop as the class `Game`,
  whose `Step` runs one tick: key presses, movement, powerup timers,
  gravity, integration and collision against `[ground] + platforms`, the
  clamp, the camera and the enemies. Then come present and powerup pickups
  (removed from the lists in place), enemy contact with lives and respawn,
  the goal, the walk animation and the delayed level switch.

`Game.Game.Valid` is the invariant every tick keeps:

- every present of the level is either still in the level or counted in the
  score, so `score + len(presents) == total_presents`;
- a level is completed exactly when it has a completion time;
- there is at least one life while playing;
- the player and the level manager keep their own invariants.

Three facts about the code that shape the invariant and the parameters:

- Nothing sets `on_ground` or `last_ground_time` during play. The vertical
  resolver's result goes to a local at main.py:189 and is never read, and
  no other line of the tick writes either field. `Game.Game.Valid`
  therefore records that the player is never grounded and that
  `last_ground_time` stays 0, so a jump relies on the coyote window
  measured from time 0 or on double jump.
- `jumps_remaining` can exceed `max_jumps`. A landing under double jump
  refills the jumps to 2 (collision.py:25), and when the powerup expires
  `update_powerups` lowers `max_jumps` to 1 (player.py:68-71) without
  touching `jumps_remaining`. `Player.Player.UpdatePowerups` states exactly
  this, and no invariant bounds the jump count by `max_jumps`.
- `COYOTE_TIME` is imported by player.py but defined nowhere, and `LEVELS` is
  imported by main.py but not defined in level.py. Both are parameters here:
  `coyoteTime` of `Game.Game` and the `levels` passed to its constructor.

A tick is also stated on values. `Game.Snapshot` holds what a tick reads
and writes besides the enemies: the player's body, status and powerup
timers, the lives, score, completion time and game state, and the level's
index, completion flag, layout and scene. The enemies' states travel beside
it as a list. The functions `Advanced` (input and physics), `Contacted`
(enemy contact) and `Finished` (goal, animation and level switch), and the
predicates `Game.Game.InteractedFrom` and `Game.Game.ResolvedFrom`, give the
new state of each part of a tick. Each method of `Game.Game` ensures that
its new state is the one these give from its old state.

Unit conventions:

- Positions, velocities and speeds of the player and the enemies are in
  thousandths of a pixel: gravity 0.6 is 600 and the 1.8x speed boost gives
  9000.
- Rectangles are whole pixels.
- Difficulty multipliers are integer percentages (85, 100, 125).
- Times are milliseconds.
- Each tick receives its clock readings as inputs:
  - `now` is the sample at the top of the loop;
  - `ticks` is the later `pygame.time.get_ticks()` reading used by the
    respawn, the completion stamp and the level-switch test;
  - `dtMs` is the frame time.

## Model

| member | source | states |
|---|---|---|
| Common.ScaledByPct | main.py:174-176 | `int(v * mult)`: sign follows v for a non-negative multiplier, and the magnitude is truncated toward zero |
| Common.ParseIntOfNatToString | level.py:296-299 | `int()` of a decimal numeral reads back the number it spells |
| Common.ParseIntOfNegated | level.py:296-299 | `int()` of a minus sign and a numeral is the negated number |
| Geometry.Trunc | collision.py:3 | `int()` of a fixed-point position: the largest whole pixel not past it, toward zero, for both signs |
| Geometry.TruncWhole | collision.py:53-55 | a whole-pixel position survives re-reading the rectangle from it |
| Geometry.Rect.WithRight | collision.py:7 | assigning `rect.right` moves the rectangle so its right edge is there, keeping y and size |
| Geometry.Rect.WithBottom | collision.py:20 | assigning `rect.bottom` moves the rectangle so its bottom edge is there, keeping x and size |
| Geometry.FirstHit | collision.py:16-17 | the first rectangle in list order that overlaps, with none overlapping before it, or none at all |
| Constants.PowerupDuration | constants.py:31-35 | a positive duration exactly for the three known powerup types, else the KeyError case |
| Settings.PresetFor | settings.py:74 | Easy gives 5 lives, 85% enemy speed and 125% powerup time; Hard gives 2, 125%, 85%; every other name gets Normal's 3, 100%, 100% |
| Settings.KeyName | settings.py:80-81 | the bound key name when the action is bound, else the default one; an action with no default is the KeyError case |
| Settings.Settings.constructor | settings.py:48-51 | missing bindings become the defaults and the derived values match the difficulty's preset |
| Settings.Settings.ApplyDifficulty | settings.py:73-77 | lives and multipliers come from the preset of the difficulty; difficulty and bindings are unchanged, so it is idempotent |
| Enemy.Patrol | enemy.py:11-18 | in range after the move (when the range is non-empty); below the range clamps to min with vx = abs(speed), above clamps to max with vx = -abs(speed), otherwise vx is kept; row, size, range and speed are kept |
| Enemy.PatrolKeepsSpeed | enemy.py:11-18 | over any number of frames vx is the initial vx or plus or minus abs(speed), and row, size, range and speed never change |
| Enemy.PatrolStaysInRange | enemy.py:13-18 | after the first frame an enemy with a non-empty range stays inside it for ever |
| Enemy.Enemy.constructor | enemy.py:4-9 | a new enemy moves at its speed and stores its rectangle, range and speed |
| Enemy.Enemy.Update | enemy.py:11-18 | the in-place update is one frame of patrol |
| Camera.ClampOffset | camera.py:15-16 | the offset is never negative, keeps the viewport inside a level at least as large, is 0 in a smaller level, and equals the centring target when that is in range |
| Camera.ShiftKeepsCollision | camera.py:18-20 | translating two rectangles by the camera offset does not change whether they overlap |
| Camera.Camera.constructor | camera.py:5-7 | the camera starts at offset (0, 0) |
| Camera.Camera.Update | camera.py:9-16 | the new offset is the clamped centring target of the player's centre, independent of the old offset |
| Camera.Camera.Apply | camera.py:18-20 | the screen rectangle keeps the size and is shifted by minus the offset |
| Camera.Camera.ApplyPos | camera.py:22-24 | the screen point plus the offset is the world point, the same shift as Apply |
| Player.Player.constructor | player.py:6-36 | a 40x60 rectangle at the start, at rest, one jump of one, all powerup timers 0, no invincibility, not grounded, first animation frame |
| Player.Player.UpdateAnimation | player.py:38-45 | frame 0 when standing; when moving, the timer accumulates and on reaching the animation speed resets while the frame advances mod 2; the frame stays a valid index |
| Player.Player.UpdatePowerups | player.py:62-76 | speed is 1.8 times base exactly while the boost runs, max_jumps is 2 exactly while double jump runs (expiry at now == until); nothing else changes |
| Player.Player.ApplyPowerup | player.py:78-82 | the type's timer becomes now + duration and the others are kept; double jump with a positive duration refills the jumps to the current max_jumps |
| Player.Player.Respawn | player.py:84-94 | back at the start at rest, invincible until clock + 1200 and so invincible at every moment of [clock, clock + 1200), not grounded, last_ground_time 0; jumps and powerups kept |
| Player.Player.Place | player.py:85-89 | position and rectangle at the given pixel, velocity zero, everything else kept |
| Player.RespawnWindowProtects | player.py:59-60 | is_invincible after a respawn at T: invincible at every t in [T, T + 1200) whatever the timers, and from T + 1200 on exactly while the invincibility powerup runs, both deadlines exclusive |
| Player.CanJumpExactly | player.py:96-118 | can_jump is false without a jump left, and otherwise true exactly when grounded, inside the coyote window or double-jumping |
| Collision.HorizontalStep | collision.py:5-10 | an overlapped platform puts the right edge at its left when moving right and the left edge at its right when moving left, after which they no longer overlap; x is re-read from the rectangle |
| Collision.HorizontalFold | collision.py:4-10 | the pass moves the rectangle only against the direction of travel, never when vx == 0, and changes nothing but rect.x and x |
| Collision.HorizontalPass | collision.py:1-10 | the rectangle ends synced with x; y, velocities, size and jumps are untouched |
| Collision.ResolveHorizontal | collision.py:1-10 | the in-place loop computes the horizontal pass and changes no other player state |
| Collision.VerticalStep | collision.py:17-30 | one platform of the vertical loop: falling into it lands on its top, stops, refills the jumps to max_jumps and reports a landing; rising into it stops under its bottom with the jumps and the landing flag kept; no overlap or no vertical motion changes nothing; only rect.y, y, vy and the jumps ever change |
| Collision.VerticalFoldIsFirstHit | collision.py:16-30 | the loop over the list equals the rule where only the first overlapped platform acts, since the first adjustment stops vertical motion |
| Collision.VerticalPass | collision.py:12-31 | returns true exactly when falling into some platform; falling lands on the first one's top with vy 0 and jumps refilled; rising stops under its bottom with jumps kept; otherwise only the snap; x, vx and size untouched |
| Collision.VerticalPassRefillsOnlyOnLanding | collision.py:18-25 | a changed jump count means the pass landed and refilled to max_jumps |
| Collision.ResolveVertical | collision.py:12-31 | the in-place loop computes the vertical pass and its result, and changes neither on_ground nor last_ground_time |
| Collision.ClampHorizontally | collision.py:36-41 | the left and right clamps change only rect.x and x |
| Collision.ClampVertically | collision.py:44-51 | the top and bottom clamps change only rect.y, y, vy and the jumps; when the top-clamped rectangle fits, vy and the jumps are kept and it ends at max(y, 0); otherwise only the bottom clamp fires, putting the bottom at the level's height, stopping the fall and refilling the jumps |
| Collision.ClampToLevel | collision.py:33-55 | inside a level at least as large as the player; synced; vy and the jumps change exactly when the top-clamped rectangle overhangs the bottom, and then vy is 0 and the jumps are refilled; an in-bounds player is not moved |
| Collision.ClampPlayerHorizontally | collision.py:36-41 | the in-place left and right clamps |
| Collision.ClampPlayerVertically | collision.py:44-51 | the in-place top and bottom clamps |
| Collision.ClampPlayerToLevel | collision.py:33-55 | the in-place clamp computes ClampToLevel and changes no other player state |
| Level.DefaultCampaign | level.py:16-73 | the fallback campaign is a valid campaign (an object with a non-empty levels array) |
| Level.LoadCampaignData | level.py:76-93 | always a valid campaign: the parsed value, unwrapped from "campaign" if present, when it is one, else the fallback |
| Level.KeptPowerups | level.py:214-218 | every kept item comes from an entry with both a rect and a type, every such entry is kept, and all are kept when all are complete |
| Level.KeptPowerupsAppend | level.py:214-218 | filtering distributes over concatenation, so the kept entries stay in the order of the list |
| Level.Rescale | level.py:223-227 | the speed becomes speed times the multiplier, truncated, and vx becomes that speed with the sign vx had (0 counting as positive); row, size and range are kept |
| Level.RescaleKeepsDirection | level.py:223-227 | with a non-negative speed, scaling keeps the direction of travel, makes abs(vx) the new speed, and keeps position and range |
| Level.RescaleTurnsNegativeSpeed | level.py:220-227 | a record with a negative speed starts moving left and, once scaled to a non-zero speed, moves right |
| Level.CheckpointOf | level.py:255-266 | a loaded checkpoint is untriggered, is named checkpoint_N by position when unnamed, and respawns at the start without a two-element respawn |
| Level.DefaultCheckpointIdsDiffer | level.py:260 | unnamed checkpoints at different positions get different ids |
| Level.SplitTrigger | level.py:171-175 | the type has no ':'; with a ':' the trigger is type + ":" + value; without one the value is empty |
| Level.ParseEvent | level.py:170-183 | a parsed event keeps its record, is not fired, and has a colon-free type |
| Level.BuildPresents | level.py:207-212 | one present per record rectangle, in order, each with one of the four textures |
| Level.BuildEnemies | level.py:220-227 | one distinct fresh enemy per record, in order, with its speed scaled unless the multiplier is 100% |
| Level.BuildCheckpoints | level.py:254-266 | the loop builds the checkpoint list of the records, positions counted from 0 |
| Level.ParseEvents | level.py:168-184 | same length as the records, nothing fired, every type colon-free |
| Level.InterludeMap | level.py:245-246 | exactly the interludes with a non-empty id are registered |
| Level.InterludeLastWins | level.py:246 | of interludes sharing an id, the last one's sequence is stored |
| Level.StoryRegistry | level.py:247-251 | the registry holds intro, outro and every interlude; interludes win a clash of names |
| Level.LevelNames | level.py:144-145 | one name per level, in order: the level's own name, else "Level " followed by its position counted from 1 |
| Level.DefaultLevelNamesDiffer | level.py:145 | unnamed levels get different names |
| Level.FirstUntriggered | level.py:272-273 | the first untriggered checkpoint with the id, none earlier, or none at all |
| Level.ActivationIsOnce | level.py:271-279 | after an activation the same id can reach only a later checkpoint with that id, and with unique ids none |
| Level.FirstTouched | level.py:282-285 | the first untriggered checkpoint the rectangle overlaps, none earlier, or none at all |
| Level.ShouldFire | level.py:295-305 | presents_collected fires when the count reaches the numeric trigger value and never for a non-number; checkpoint_reached fires on the same id; any other type fires at once |
| Level.MarkFired | level.py:289-308 | each event is marked fired exactly when it had not fired, has the type and its condition holds |
| Level.FiredByComesFromList | level.py:307-310 | every returned event is fired, of the handled type, and came from the list |
| Level.FiredByComplete | level.py:289-310 | every event that fires (not yet fired, of the handled type, its condition met) is returned, marked fired |
| Level.FiredByCount | level.py:289-310 | the returned list is exactly as long as the number of events the marking flips, so the returned events and the marked ones correspond one to one |
| Level.FiresAtMostOnce | level.py:287-310 | handling the same trigger again fires nothing and changes nothing |
| Level.OtherTypesUntouched | level.py:292-293 | events of other types are left as they are |
| Level.DecideFire | level.py:295-305 | the per-event decision is ShouldFire |
| Level.FireEvents | level.py:287-310 | the loop marks the events and returns the newly fired ones in list order |
| Level.EffectsAreExclusive | level.py:312-324 | an unknown effect spawns nothing and no event spawns both powerups and platforms |
| Level.LayoutOf | level.py:195-235 | the width and height default to 800x600, the name to "Level " and the position counted from 1, the ground to a 40-pixel strip along the bottom spanning the width, the goal to an empty rectangle; total_presents is the number of present records |
| Level.BuildScene | level.py:203-268 | the loaded scene has the record's platforms, no dynamic platforms, textured presents, complete powerups, untriggered checkpoints, unfired events and respawn at the start |
| Level.LevelManager.constructor | level.py:99-139 | the index is clamped into the level list and that level is loaded; without levels, an empty 800x600 world |
| Level.LevelManager.LoadLevel | level.py:189-268 | the level's layout, story, scene and scaled enemies are rebuilt from its record, not completed, outro not played; nothing happens without levels |
| Level.LevelManager.ActivateCheckpoint | level.py:271-279 | the first untriggered checkpoint with the id is triggered and moves the start and respawn point to it; its interlude is returned when it exists; without one nothing changes |
| Level.LevelManager.CheckpointCollisions | level.py:281-285 | the first untriggered checkpoint in list order that the player touches, with none touched before it, or none at all when none is touched |
| Level.LevelManager.HandleProgressEvent | level.py:287-310 | the events become MarkFired and the newly fired ones are returned; nothing else changes |
| Level.LevelManager.ApplyEventEffect | level.py:312-324 | spawned powerups are appended to powerups and spawned platforms to both platform lists; nothing else changes |
| Level.LevelManager.GetStorySequence | level.py:326-327 | an interlude by id, else intro or outro by name, else empty |
| Level.LevelManager.NextLevel | level.py:329-334 | advances and loads exactly when a next level exists, else changes nothing |
| Level.LoadedCountsPresents | level.py:234 | a freshly loaded level's total is its number of presents |
| Level.LoadedNameIsListed | level.py:235 | the loaded level's name is the one get_level_names lists |
| Game.PressAllEffect | main.py:155-162 | the presses honour min(jumps, jump presses) jumps when the window is open and none otherwise, never going below 0; vy is the jump strength exactly when a jump was honoured; the game pauses exactly when the pause key was pressed |
| Game.Steer | main.py:165-171 | at rest without movement keys; left gives -speed facing left; right gives +speed facing right and wins over left |
| Game.Fall | main.py:182-184 | vy + gravity, capped at the terminal velocity, so never above it |
| Game.Solids | main.py:186-189 | both resolvers see the ground first and then the platforms, in their order |
| Game.IntegratedInLevel | main.py:186-190 | after moving, resolving and clamping, the player is synced, inside the level, the same size with the same vx, and its jumps are kept or refilled |
| Game.IndexOf | main.py:200 | list.index: a position holding the value with no copy before it |
| Game.RemoveFirst | main.py:200 | list.remove drops exactly the first copy of the value, keeping the rest in order |
| Game.UntouchedExactly | main.py:198-202 | the remaining list holds exactly the items the player does not touch |
| Game.RemoveAfterUntouched | main.py:198-200 | removing a touched item by value removes that item and not an earlier copy, since the earlier ones are untouched |
| Game.PickupTaken | main.py:198-202 | a touched item is in the list and removing it keeps the list as the untouched prefix followed by the rest |
| Game.PickupKept | main.py:198-199 | an untouched item stays in place |
| Game.ScaledDuration | main.py:174-176 | a duration exactly for the known types: the base times the multiplier, truncated, and positive for a positive multiplier |
| Game.Press | main.py:155-162 | one KEYDOWN: the pause key pauses; otherwise the jump key spends exactly one jump and sets vy to the jump strength when a jump is left and the window is open; any other key changes nothing |
| Game.PickUpStaysFailed | main.py:205-208 | once a pickup has raised, no later one applies |
| Game.PickUpEffect | main.py:205-210 | the powerup pickups fail exactly when a touched powerup has an unknown type; otherwise no timer is lost and the jumps are kept or refilled |
| Game.MoveHorizontally | main.py:186-187 | x += vx and the horizontal resolve |
| Game.MoveVertically | main.py:188-189 | y += vy and the vertical resolve, whose result is dropped |
| Game.Integrate | main.py:186-190 | the player's body becomes the integrated body and only the body changes |
| Game.StartLevel | main.py:42-44 | a fresh level manager on the chosen level, loaded, its total being its number of presents |
| Game.Pressed | main.py:155-162 | the key presses from a snapshot, the window read before anything moves: pause exactly when the pause key was pressed; jumps only spent, never below 0; vy is the jump strength exactly when a jump was honoured |
| Game.Pressing | main.py:155-162 | the presses applied to a snapshot change only vy, the jumps and the game state |
| Game.Steering | main.py:165-171 | the movement keys applied to a snapshot set vx and facing to Steer and change nothing else |
| Game.Controlled | main.py:155-171 | presses then movement: the pause, the jump bounds and Steer at the speed before the tick |
| Game.Physicked | main.py:179-190 | speed is 1.8 times base exactly while the boost runs, max_jumps is 2 exactly while double jump runs; only the body and the speed change |
| Game.Advanced | main.py:155-190 | controls then physics: the pause, the speed, the facing of Steer; only the body, speed, facing and game state change |
| Game.AdvancedStaysInLevel | main.py:179-190 | after the first half of a tick a player no larger than the level is inside it and synced, has the capacity of its timers, and a jump count between 0 and the old count or the new capacity |
| Game.Collected | main.py:197-210 | the pickups on values: a crash exactly when a touched powerup has an unknown type; otherwise the presents are the untouched ones with the tally whole, the powerups the untouched ones, the timers and jumps those of PickUp, and nothing else changes |
| Game.Contacted | main.py:212-229 | an unprotected touch costs a life; the game is over exactly on the last life, with only lives and state changed; otherwise the player respawns at the start, protected throughout [ticks, ticks + 1200); no touch or protection changes nothing |
| Game.Finished | main.py:231-301 | the first gated goal touch completes the level stamped at ticks; the animation steps; the switch comes exactly when the delay has passed and a next level exists, and after the last level the state is MAIN_MENU; nothing else changes |
| Game.Game.constructor | main.py:40-52 | the level is loaded; the player stands at its start as a new Player: 40x60, at rest, one jump of one, every powerup timer 0, no invincibility, base speed, first animation frame; the camera at (0, 0); the difficulty's lives, score 0 and no completion time |
| Game.Game.HandleKeyPresses | main.py:155-162 | the KEYDOWN loop's state, vy and jumps are those of PressAll over the presses |
| Game.Game.ApplyMovement | main.py:165-171 | vx and facing are Steer of the held keys, and nothing else changes |
| Game.Game.ApplyGravity | main.py:182-184 | vy becomes Fall of the old vy |
| Game.Game.Controls | main.py:155-171 | the new state is Controlled of the old: the presses, then the movement keys; the invariant is kept |
| Game.Game.Physics | main.py:179-190 | the new state is Physicked of the old: update_powerups, then gravity, then both moves against [ground] + platforms, then the clamp; the invariant is kept |
| Game.Game.UpdateEnemies | main.py:194-195 | every enemy takes one Patrol step; the rest of the game and the camera are untouched |
| Game.Game.TakePresents | main.py:198-202 | the presents become the untouched ones and the score grows by the number removed |
| Game.Game.TakeIfTouched | main.py:206-208 | a touched powerup is applied for its scaled duration, and only an unknown type fails |
| Game.Game.Collect | main.py:197-210 | presents and score as above, so the tally stays whole; the powerups applied in order, untouched ones kept; an unknown type is reported |
| Game.Game.TakePowerups | main.py:205-210 | the timers and jumps are PickUp over the powerups, the list becomes the untouched ones, and an unknown type is reported |
| Game.Game.TouchesEnemy | main.py:213-217 | true exactly when some enemy overlaps the player |
| Game.Game.EnemyContact | main.py:212-229 | the new state and the game-over flag are Contacted of the old: an unprotected touch costs one life and then ends the game with the player untouched on the last life, or respawns at the level's start (rect, x, y, at rest, invincible from ticks); otherwise nothing changes |
| Game.Game.CheckGoal | main.py:232-239 | the goal completes the level only with every present counted, stamping the time only on the first completion |
| Game.Game.AdvanceLevel | main.py:285-301 | only after the delay: load the next level with a new player (40x60 at its start, at rest, one jump, all timers 0), score 0 and no completion time, or go to the menu after the last level |
| Game.Game.Move | main.py:155-190 | the new state is Advanced of the old: controls, then physics; the enemies are untouched |
| Game.Game.Follow | main.py:192-195 | the camera centres on the player within the level and every enemy patrols one frame; the rest of the game is untouched |
| Game.Game.Advance | main.py:151-195 | the new state is Advanced of the old, each enemy is one Patrol step on, and the camera is centred on the new player within the level; PLAYING or PAUSED |
| Game.Game.Interact | main.py:197-301 | InteractedFrom the old state: the pickups of Collected, or the crash on an unknown powerup type; then the contact and the goal, animation and switch of ResolvedFrom; at most one life lost; the camera untouched |
| Game.Game.Resolve | main.py:212-301 | ResolvedFrom the old state and enemies: Contacted, then, unless the game is over, Finished or, on a switch, the next level with a new player |
| Game.Game.Finish | main.py:231-301 | the new state is Finished of the old: the goal stamps the first completion, the animation steps, and after the delay the next level is loaded with a new player or the game goes to the menu |
| Game.Game.Step | main.py:151-301 | one tick: Advanced, then InteractedFrom that state with the patrolled enemies, the camera centred on the player after the physics; at most one life lost; ends in PLAYING, PAUSED or MAIN_MENU and stops only on an unknown powerup type |
| Game.GoalNeedsEveryPresent | main.py:233 | with the tally whole, score >= total_presents holds exactly when no present is left |

## Left out

- Drawing, the window, menus, the HUD and messages are not modelled, because
  they are display and UI with no effect on the simulation. This covers
  display.py, menu.py, ui.py, the drawing in main.py and `show_message`.
- The `pygame.time.delay` pauses are not modelled, because they are blocking
  display beats.
- utils.py texture loading is not modelled: it is file I/O and a foreign
  library. `get_current_frame`, the texture fields, `_load_background`, the
  overlay surfaces and the parallax and decoration lists are left out for the
  same reason.
- Event pumping and the menu branches of the main loop are not modelled,
  because they are outside the PLAYING tick. A tick's input is given as the
  key names pressed, in order, and the key names held.
- Key codes are not modelled: `key_name_to_const`, `key_const_to_name` and
  `set_key` depend on pygame's key tables. Bindings are compared by name, and
  an action without a default binding is the KeyError case.
- `Settings.load` and `save` are not modelled, because they are JSON file
  I/O. Settings are built by the constructor.
- JSON file reading in `load_campaign_data` is not modelled, because it is
  file I/O. Only the validation of an already parsed value is modelled.
- Level records are typed values with optional fields, not dictionaries, so
  malformed field types inside a level record are not modelled. The
  per-level `id`, the metadata dictionary and the raw campaign object are
  dropped, because nothing in the tick reads them.
- The random present texture is any one of the four names, because
  randomness is outside the model.
- Floats are fixed point or percentages, as described above. Rounding below
  a thousandth of a pixel is not modelled.
- The clock is an input. The three `get_ticks()` reads after the top of the
  loop (respawn, completion stamp, level-switch test) are one `ticks` value.
- `Game.Game.Step` models a single tick in PLAYING. The switch into PLAYING
  from the menus is the constructor. A pause keeps the rest of its tick, as
  in the code.
- `Game.Game.TakePowerups` removes items from a local copy of the list and
  writes it back once, even when an unknown type stops it midway. The effect
  on the level's list is the same as removing in place, because the program
  stops at that point anyway.
- After a level switch, `Game.Game.AdvanceLevel` does not write
  `completed = False`, because `load_level` has already cleared it.
- Negative level indices are not modelled. Python would index from the end,
  but the game never passes one.
- `LevelManager` keeps the story registry as a function of the story
  (`Level.StoryRegistry`) rather than as a stored dictionary, because nothing
  changes it after loading.
- `Game.Game.Step` never calls the checkpoint and event operations
  (`activate_checkpoint`, `checkpoint_collisions`, `handle_progress_event`,
  `apply_event_effect`), because the tick in main.py does not call them
  either. They are modelled as `LevelManager` methods.
- `Level.ActivationIsOnce`: with duplicate checkpoint ids, a second
  activation reaches the next checkpoint with that id rather than nothing.
  Only with unique ids does a second call find nothing, as the code does.
- `Common.ParseTrimmed` reads ASCII decimal digits only, with single
  underscores between them as Python allows. Python's `int()` also accepts
  the other Unicode decimal digits, so a `presents_collected` trigger value
  written with those never fires here.
