# Horse game rules engine

A Dafny model of the rules engine of the side-scrolling horse game. The engine
exists twice in the repository: `HorseGame` in `horse_game.py` (the tkinter
desktop front end) and `HorseGameWidget` in `main.py` (the kivy mobile front
end). The model is one engine over one immutable `GameState` record, written
as pure functions and parameterised by the front end:
`Front = Desktop(spriteW, spriteH) | Mobile`. The front ends differ in four
places, and each is modelled as a branch on `Front`:

- Hint cues: the desktop throttles them with counters that fire on every
  20th hint, or every 50th caution. The kivy front end voices every change
  once the cooldown has run out.
- Horse size on reset: the desktop uses the loaded sprite's size; kivy uses
  a fixed 110 x 70.
- Stopping sounds: the desktop `_end_game` and `reset` stop all playing
  sounds first; kivy does not.
- Slide gating: the desktop key handler only passes slide through while a
  run is live and unpaused. The kivy `handle_slide` is ungated.

Sound playback becomes an outbox: every sound the source would play is
appended to `audio.cues` as a `Cue`. The wall clock becomes the frame
parameters `delta` (the time since the previous frame, clamped to 0.05 s
inside `Tick` as the source does) and `elapsed` (the time since the run
started). Every `random` draw of a frame arrives in a `Draws` record whose
`Valid()` states the source's ranges. `math.hypot` is a parameter `hyp`
that is only assumed to be non-negative.

Modules, in dependency order:

- `Seqs`: order-preserving filters.
- `Model`: constants, enumerations and the state record.
- `Physics`: gravity, jump, slide and hurtbox.
- `Progress`: achievements, records and the end of a run.
- `Director`: the challenge script, obstacle generation, difficulty and the
  spawn cadences.
- `World`: the speed multiplier, movement, culling and the magnet pull.
- `Collision`: obstacles, shield, stars, score and power-ups.
- `Hints`: the hint classifier and its cue throttle.
- `Commands`: reset, countdown, pause, mode cycle and key dispatch.
- `Engine`: the frame step `tick`.
- `Lifecycle`: the invariant, the phases, and whole sessions of frames and
  commands.

## Model

| member | source | states |
|---|---|---|
| Physics.UpdateHorse | horse_game.py:484-495 | The body never ends below the floor. It is grounded exactly when the integrated position reached the floor, and then it rests on it with zero speed and its air jump restored. Otherwise it has moved by one semi-implicit Euler step. |
| Physics.Jump | horse_game.py:384-415 | A jump is ignored unless the run is live and unpaused. A ground jump restores the air-jump budget; an air jump is accepted only while the budget lasts and spends it. Every accepted jump sets the upward speed to 1100, leaves the ground and adds exactly one to the jump count. The horse's position and size are untouched, and nothing else changes but the jump-cue bookkeeping. A ground jump raises the jump cue only the first time in a run. An air jump counts itself and raises the double-jump cue exactly on every sixth. |
| Physics.Slide | horse_game.py:448-453 | A slide is refused while airborne or cooling down, and on the desktop also unless the run is live and unpaused. Otherwise it starts a 0.45 s slide with a longer 1.3 s cooldown, and nothing else in the state changes: the slide acts on the game only through the hurtbox. |
| Physics.HurtBox | horse_game.py:602-604 | While sliding the hurtbox is 60% of the body's height with the bottom edge kept in place; it never reaches above the body. |
| Progress.SetAchievement | horse_game.py:652-657 | A title already unlocked changes nothing at all. A new title joins the set and shows its banner for 2.6 s. The set only grows. |
| Progress.RepeatIsOnce | horse_game.py:652-657 | Triggering a title any positive number of times has exactly the effect of triggering it once. |
| Progress.UpdateRecords | horse_game.py:674-689 | Best time and distance become the maximum of old and new. Best score and combo become the larger of the old value and this run's. The timed best changes only in timed mode, and there becomes the larger of the old value and this run's stars. The challenge best changes exactly on a cleared challenge that is the first (0 sentinel) or strictly faster, and then becomes this run's time. |
| Progress.FirstRecords | horse_game.py:176-196 | Merging a first run into the fallback records of a fresh install sets every best to that run's own figures; the timed and challenge bests stay 0 outside their modes. |
| Progress.EndGame | horse_game.py:659-672 | The run stops with the given reason and the records are merged, never getting worse. The desktop first cues stop-all; a hit cues the hit sound. Nothing else changes. |
| Director.BuildScript | horse_game.py:260-276 | Entry i of the script has delay 1.1 + 0.15 i, height 70 + 3 i, width 50 + 10 (i mod 3), speed 260 + 12 i, and theme number i mod 4. |
| Director.ScriptShape | horse_game.py:260-276 | The challenge script has exactly 12 entries and starts with delay 1.1. Delays, heights and speeds strictly increase along it. Widths repeat with period 3 and themes with period 4. |
| Director.TotalDelayOfPrefix | horse_game.py:260-276 | The delays of the first n entries sum to 1.1 n + 0.075 n (n - 1); like the total, a fact about the script data alone. |
| Director.ScriptTotalDelay | horse_game.py:260-276 | The delays of the whole script add up to 23.1 s. This is a fact about the script's data alone; no rule of the engine reads the total. |
| Director.Difficulty | horse_game.py:1058-1061 | Difficulty is exactly 1 in challenge mode. Otherwise it is 1 + elapsed / 38 up to 83.6 s and 3.2 from then on, so it never exceeds 3.2 and is at least 1 once elapsed is non-negative. |
| Director.DifficultyMonotone | horse_game.py:1058-1061 | Difficulty never drops as elapsed time grows. |
| Director.RandomObstacleBounds | horse_game.py:463-480 | A random obstacle at a difficulty in [1, 3.2] stands on the ground at the right edge. Its height is in [60, 146], its width in [39, 92] and its speed in [264.5, 691.2]. |
| Director.SpawnRandom | horse_game.py:455-482 | A random spawn appends exactly one obstacle, keeping the others. The new obstacle is the random draw at the current difficulty, on the ground at the right edge, so for any difficulty a run reaches (1 to 3.2) its size and speed lie in the ranges of Director.RandomObstacleBounds. The obstacle countdown is reloaded to the drawn gap divided by max(0.8, difficulty), a value in [1.1, 2.1] / max(0.8, difficulty) that is positive and at most 2.625. Nothing else changes. |
| Director.ObstacleCadence | horse_game.py:1077-1080 | The obstacle countdown runs down by dt. A random obstacle spawns exactly when it runs out. |
| Director.ScriptCadence | horse_game.py:1069-1076 | The script is consumed strictly in order, at most one entry per frame. The cursor advances exactly when entries remain and the countdown has run out. The cursor never passes the end. A spawn appends that entry's obstacle and reloads the countdown from the next entry's delay. The random obstacle countdown is untouched. |
| Director.StarCadence | horse_game.py:1082-1085 | A star enters at the right edge exactly when the star countdown runs out. The countdown is then reloaded within [0.7, 1.3], and it stays positive. |
| Director.PowerCadence | horse_game.py:1087-1090 | A power-up of the drawn kind enters at the right edge exactly when its countdown runs out. The countdown is then reloaded within [4.0, 6.5], and it stays positive. |
| World.Multiplier | horse_game.py:498-504 | The world speed multiplier always lies in [0.4, 3.0]. It is the difficulty scaled by 1.35 while invincible and by 0.6 while slowed when that lies in range, and the nearer bound otherwise. |
| World.PlainMultiplier | horse_game.py:498-504 | Without effects and with a difficulty already in range, the multiplier is the difficulty itself. |
| World.MoveObstacles | horse_game.py:506-511 | Every obstacle moves left by speed times step. Exactly the moved obstacles with x + w > -30 are kept, and nothing else appears. |
| World.MoveObstaclesAppend | horse_game.py:506-511 | Moving and culling distributes over concatenation, so the kept obstacles stay in their original order. |
| World.StepStar | horse_game.py:589-597 | A star keeps its size and speed. Without a magnet it only moves left. |
| World.PullIsBounded | horse_game.py:591-597 | The magnet moves a star by at most the pull strength on each axis, and horizontally towards the horse, never away from it. |
| World.MoveStars | horse_game.py:584-598 | Every star takes one step. Exactly the stepped stars with x > -40 are kept, and nothing else appears. Order and number of survivors are fixed by World.MoveStarsAppend. |
| World.MoveStarsAppend | horse_game.py:584-598 | Moving and culling stars distributes over concatenation, and a single star survives exactly when its stepped copy is on screen; so survivors keep their order and every duplicate is kept or dropped on its own. |
| World.MovePowerUps | horse_game.py:558-562 | Every power-up moves left by speed times step. Exactly the moved ones with x > -50 are kept, and nothing else appears. Order and number of survivors are fixed by World.MovePowerUpsAppend. |
| World.MovePowerUpsAppend | horse_game.py:558-562 | Moving and culling power-ups distributes over concatenation, and a single power-up survives exactly when its shifted copy is on screen; so survivors keep their order and number. |
| Collision.ApplyAll | horse_game.py:544-556 | After the collected kinds are applied, a timer is at its fixed length (slow 4, magnet 6, double 6) exactly when its kind was collected, and is untouched otherwise. Timers are overwritten, never added to. The shield is set exactly when a shield was collected or already present. |
| Collision.Missed | horse_game.py:619-626 | No kept star overlaps the hurtbox, and every star that does not overlap is kept. The collected and kept stars together are exactly the input stars, as a multiset. With nothing collected, every star is kept in place. |
| Collision.ScoreTally | horse_game.py:627-640 | The score grows by the gain, and reaching 10 resets it to 0. Total stars and combo grow by the raw count n. The combo window restarts at 1.8 s. The ten-star title is held exactly when it was held already or total stars reach 10, the streak title exactly when it was held or the combo reaches 5, and no other title is added. With no new title the banner is untouched. |
| Collision.Award | horse_game.py:627-636 | The score stays below 10. Trading a score that reaches 10 gives exactly 5 s of invincibility and the invincible cue. Otherwise effects and cues are untouched. |
| Collision.CollectStars | horse_game.py:618-640 | All overlapping stars are removed at once and scored together. With none overlapping, nothing changes. Only the stars, the tally, the cues and the invincibility (started at 5 s on a wrap) change; titles are only added and the score stays below 10. |
| Collision.CollectPowerUps | horse_game.py:642-650 | Exactly the overlapping power-ups are removed and their effects gathered; nothing else changes. |
| Collision.Gather | horse_game.py:544-556 | After a power-up pickup, slow, magnet and double are at their full lengths (4, 6, 6) exactly when an overlapping power-up of that kind was collected, and untouched otherwise. The shield is up exactly when one was collected or it already was. Invincibility and the slide timers are untouched. |
| Collision.CollectedKinds | horse_game.py:642-650 | A kind is among the collected kinds exactly when an overlapping power-up of that kind was in the field. |
| Collision.Pickups | horse_game.py:618-650 | Pickups only ever set a timer to its full length (invincibility 5, slow 4, magnet and double 6, combo 1.8, banner 2.6). They never touch the slide timers, the jump count or the titles already won. |
| Collision.BreakShield | horse_game.py:610-614 | The shield is spent, and invincibility becomes the larger of what is left and 1.2 s; nothing else changes. |
| Collision.CheckCollisions | horse_game.py:600-650 | A blocking hit (not invincible, hurtbox overlapping an obstacle) breaks the shield if there is one and otherwise ends the run with "hit". Either way nothing is collected. Without a blocking hit the pickups happen. Body, obstacles, flags other than running, spawner and records-never-worse are kept throughout. |
| Collision.InvincibleIgnoresObstacles | horse_game.py:605-606 | While invincible, the outcome is the same whatever obstacles are in the field. |
| Collision.UnshieldedHitEndsRun | horse_game.py:606-616 | A hit without shield or invincibility ends the run with "hit". |
| Collision.ShieldAbsorbsHit | horse_game.py:606-616 | A shielded hit spends the shield for at least 1.2 s of invincibility, keeps the run and its reason, and collects no star or power-up that frame. |
| Hints.NearestX | horse_game.py:693-697 | There is no result exactly when no obstacle is ahead of the horse's right edge. Otherwise the result is the left edge of an obstacle ahead, and no obstacle ahead starts further left. |
| Hints.NearestHintMeaning | horse_game.py:691-703 | Each of the four hints holds exactly when its condition on the obstacles ahead holds. Keep rhythm: none ahead. Caution: one ahead within 60. Ready: none within 60, grounded, and one within 220. Observe: otherwise. |
| Hints.Announce | horse_game.py:1132-1152 | An unchanged hint changes nothing. A changed hint becomes current. At most one cue is added, it is that hint's cue, and adding it rearms the 1 s cooldown. No cue while cooling down. Once the cooldown has run out, kivy always cues; the desktop counts the change and cues exactly on every 50th caution or every 20th other hint. |
| Hints.FrontEndsDiffer | main.py:879-892 | From fresh counters and an expired cooldown, kivy voices a changed hint and the desktop stays silent. |
| Commands.Reset | horse_game.py:278-338 | A reset lands on the start screen with an empty field. The horse is grounded at x = 120 with the front end's size (the sprite on the desktop, 110 x 70 on kivy). Spawn countdowns are 1.2, 0.8 and 1.6 s, every effect is off, the tally is blank and the hint state is cleared. The script cursor is at the start with the first delay loaded. Front, mode and records are kept. The desktop also clears the hint counters, which kivy keeps. The desktop cues stop-all, then both cue the start sound. |
| Commands.ResetForgetsRun | horse_game.py:278-338 | Two states with the same front, mode, records and outbox reset to the same state, whatever their runs were. |
| Commands.ResetTwice | horse_game.py:278-338 | Resetting twice is resetting once, apart from the second round of cues. |
| Commands.Init | horse_game.py:66-143 | A new game starts in endless mode on the start screen with the loaded records. Apart from the cue outbox, resetting it changes nothing, so every field Commands.Reset fixes has its reset value. |
| Commands.StartCountdown | main.py:286-290 | Only from the start screen, and not already counting down, does a 3 s countdown begin. Otherwise nothing changes. |
| Commands.TogglePause | horse_game.py:421-427 | Pause flips only for a live run, with the pause or resume cue. Otherwise nothing changes. Nothing but the flag and the outbox ever changes. |
| Commands.PauseResume | horse_game.py:421-427 | Pausing and resuming restores the run exactly, with a pause cue then a resume cue. |
| Commands.NextMode | horse_game.py:440-444 | The next mode always differs from the current one. |
| Commands.ModeCycle | horse_game.py:440-444 | Three steps return to the start, and they visit all three modes. |
| Commands.CycleMode | horse_game.py:440-446 | The mode cannot change during live play. Otherwise the mode advances one step and the game resets. |
| Commands.PressEnter | horse_game.py:372-379 | On the start screen Enter starts the countdown exactly as the start button does, without touching the run flags. Otherwise it toggles pause. |
| Commands.Apply | horse_game.py:340-395 | No command changes the front end or the records, and cues are only appended. A jump outside a run and a mode switch during live play change nothing. Reset always lands on the start screen. |
| Engine.CountdownStep | horse_game.py:1048-1055 | Only a running countdown changes. When it reaches 0 the run goes live and leaves the start screen. Otherwise it runs down by dt. |
| Engine.Pace | horse_game.py:1056-1067 | Elapsed and difficulty are refreshed. The stage never drops, never changes in challenge mode, and otherwise climbs to the 20 s stage. The distance grows by the world speed and never shrinks for a forward frame. |
| Engine.SpawnObstacles | horse_game.py:1069-1080 | In challenge mode the step is exactly the script cadence, and the random countdown is untouched. In the other modes it is exactly the random cadence, and the script cursor and its countdown are untouched. Obstacles are only appended. |
| Engine.Direct | horse_game.py:1069-1090 | Spawning only appends obstacles, stars and power-ups, keeps the script cursor within the script, and leaves both pickup countdowns positive. |
| Engine.MagnetPull | horse_game.py:587-595 | The pull is in force exactly while the magnet timer runs. |
| Engine.Move | horse_game.py:1092-1096 | The body takes one physics step, and the three kinds of entities move by the world speed of the frame. Stars are pulled only while the magnet runs. |
| Engine.Decayed | horse_game.py:1099-1100 | A running timer drops by dt, stops at exactly 0 and never goes negative. An expired timer is left alone. |
| Engine.DecayEffects | horse_game.py:1099-1110 | Every effect timer decays the same way. The shield, which is not a timer, is kept. |
| Engine.Decay | horse_game.py:1099-1118 | The effects, the combo window, the banner and the hint cooldown decay. The combo is zeroed exactly in the frame its window drops from positive to 0. |
| Engine.SurvivalTitles | horse_game.py:1120-1123 | The chain-jumper title is held exactly when it was held already or 15 jumps are reached. The 30-second title is held exactly when it was held already or 30 s have passed. No other title is added. |
| Engine.EndWith | horse_game.py:1125-1130 | The title is unlocked and the run ends with the reason. Records never get worse and cues are only appended. |
| Engine.Endings | horse_game.py:1125-1130 | Timed mode at the limit ends as a timed victory. A challenge with the script spent and the field clear ends as cleared. Otherwise nothing changes. |
| Engine.Milestones | horse_game.py:1120-1130 | Titles only grow and records never get worse. A run still going keeps its reason. A run that stops here stops as a timed victory or a cleared challenge. |
| Engine.Advise | horse_game.py:1132-1152 | The current hint becomes the classifier's verdict on the frame's final field, announced through the throttle. |
| Engine.Frame | horse_game.py:1056-1152 | A live frame keeps the front end, the mode and the start, countdown and pause flags. Records never get worse and titles only grow. |
| Engine.Tick | horse_game.py:1042-1152 | A paused, finished or not-yet-started run is left exactly as it is. No frame changes the front end or the mode, makes the records worse or takes a title away. |
| Lifecycle.ResetEstablishes | horse_game.py:278-338 | Every reset, from any state, lands on the start screen in a state satisfying the invariant. The invariant covers score, timers, script, body and lifecycle flags. |
| Lifecycle.InitEstablishes | horse_game.py:66-143 | The initial state satisfies the invariant and is on the start screen. |
| Lifecycle.ApplyKeepsInv | horse_game.py:340-446 | Every command keeps the invariant and leaves the records alone. It makes only the phase change the source allows: start to countdown, play and pause flipping, a mode switch or reset back to the start screen. |
| Lifecycle.FrameKeepsInv | horse_game.py:1056-1152 | A live frame keeps the invariant. |
| Lifecycle.CollisionKeeps | horse_game.py:600-650 | The collision stage keeps the invariant, including the score below 10 and the body on or above the floor. |
| Lifecycle.TickKeepsInv | horse_game.py:1042-1152 | A frame keeps the invariant. The phase changes only from countdown to play or over, or from play to over. |
| Lifecycle.TimeLimitEndsRun | horse_game.py:1097-1127 | A live timed frame at or past 60 s always ends the run as a timed victory. This holds even when an obstacle hit already ended the run earlier in the same frame. |
| Lifecycle.ClearingNeedsEmptyField | horse_game.py:1128-1130 | The end checks declare a challenge cleared only from an empty field and a spent script. |
| Lifecycle.ClearedMeansEmptyField | horse_game.py:1128-1130 | A challenge frame that ends as cleared leaves no obstacle and the whole script spent. |
| Lifecycle.EmptyFieldClears | horse_game.py:1128-1130 | A live challenge frame that finds the script spent and the field empty after movement ends the run as cleared. |
| Lifecycle.RunKeepsInv | horse_game.py:1042-1152 | Over any session of frames and commands from a state satisfying the invariant, the invariant holds, the records never get worse and the front end never changes. |
| Lifecycle.FramesAloneStayPut | horse_game.py:1048-1056 | On the start screen, frames alone leave the game exactly as it is; only a command starts it. |

## Left out

- Drawing, layout and the HUD (`draw_*`, `_draw_*`, `_to_screen`, `_update_scale`, the app's `build` and `_sync_ui`): presentation only. `status_text` and the banner text are not modelled either; the banner's title and timer are.
- Fireworks, lanterns, trails and the ground-run animation: cosmetic, driven by random draws and trigonometry.
- Obstacle blessings (the random label characters): cosmetic. Themes are kept.
- Sound playback, the playback threads and the volume levels: foreign calls and concurrency. Each requested sound is a `Cue` in the outbox.
- Records file I/O (`_load_records`, `_save_records`): the loaded records are a parameter of `Init`, and the save after `_update_records` is not modelled.
- Sprite and texture loading: the sprite's size is carried by `Front.Desktop`.
- Key rebinding, key normalisation and visual-profile cycling: they change no rule. The bound keys are modelled as the `Command` values they dispatch to.
- The desktop start-button hit test: a click inside the button is the `StartButton` command.
- `time.time()`: the wall clock enters each frame as `delta` and `elapsed`. As in the source, `elapsed` is wall-clock time since the run started, so it includes paused time. In the frame the countdown expires it can even be slightly negative, which is why the difficulty's lower bound is stated for non-negative elapsed time only.
- `random`: every draw is a field of `Draws`. `Valid()` gives the source's ranges, with `randint` draws as integers and `uniform` draws as closed real intervals.
- `math.hypot`: a parameter, assumed only to be non-negative. `World.PullIsBounded` additionally asks it to be at least each leg of the triangle, as a Euclidean norm is.
- Floating point: Python floats are Dafny reals. `int(...)` on the positive scaled sizes is `.Floor`, and `elapsed // 20` is `.Floor` of the quotient.
- The python-for-android recipes under `p4a_recipes`: build-time packaging, not game rules.
- Engine.Tick: its own contract states only the frame-wide facts. The invariant and the allowed phase changes are stated by `Lifecycle.TickKeepsInv`; the timed and challenge endings by `Lifecycle.TimeLimitEndsRun`, `Lifecycle.ClearedMeansEmptyField` and `Lifecycle.EmptyFieldClears`.
- The minimum random width is 39, not 40: `int(40 * 0.98)` truncates at difficulty 1.0, and `Director.RandomObstacleBounds` states the bound the code gives.
