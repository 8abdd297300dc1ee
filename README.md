# VR-Z game logic in Dafny

VR-Z is a browser zombie shooter built on three.js. The player walks around a walled
arena and throws snowballs at zombies that arrive in waves. This project models the game
logic and proves properties about it. The rendering, loading and audio layers are left out.

The model covers these parts of the game:

- **The player** (`PlayerModel`, from `js/classes/Player.js`):
  - health, death and reset;
  - held keys;
  - the capsule collider moved by `handleMovement`, corrected by the collision step, and
    sent back to the last safe position by the world-bounds and fall checks.
- **The zombie roster** (`Zombies`, from `js/classes/ZombieManager.js`):
  - the per-zombie state machine chosen by distance bands (idle, walk, attack, die);
  - the attack cooldown;
  - the death timer and the order-keeping removal filter;
  - the kill counter;
  - the events of the asynchronous wave machinery.
- **The wave schedule** on its own (`Waves`): waves and interval timers as a pure schedule.
- **The snowball pool** (`Projectiles`, from `js/classes/ProjectileManager.js`):
  - 100 spheres reused round-robin;
  - the "frozen below y = -50" rule;
  - parking at (0, -100, 0);
  - the first-live-zombie-in-reach hit rule.
- **The HUD** (`Hud`, from `js/classes/UIManager.js`):
  - the health percentage and its three colour bands;
  - the `Zombies: n` counter text and its decimal rendering;
  - the death and pause screens.
- **The stand-alone `Zombie` class** (`LegacyZombie`, from `js/classes/Zombie.js`), whose
  `takeDamage` has no dead-guard.

The modelling choices:

- **Numbers, vectors and integer health.** JavaScript numbers are `real`. three.js vectors
  are the value type `Vec3`. Zombie health is an integer: it starts at 3 and only `-= 1`
  ever touches it.
- **Square roots.** A square root the code relies on is an input, pinned down by a
  predicate:
  - `IsDistance(d, a, b)` means `d >= 0 && d * d == DistanceSq(a, b)`;
  - `IsHorizontalLength` does the same for the speed clamp.

  The snowball test `distance < 1` is modelled exactly as `DistanceSq < 1`.
- **Mutable objects.** Objects the source mutates are classes: `Player`, `ZombieManager`,
  `ProjectileManager` (its pool is an `array<Sphere>` of 100) and `UIManager` (the DOM
  values it last wrote). The zombies in `ZombieManager.zombies` are value records, each
  replaced in place when it is updated.
- **Specification functions.** Every state-changing method is tied to a pure function of
  the old state, for example `Moved`, `Collided`, `Bounded`, `StepAll`, `Kept`, `Swept`
  and `Ticked`. The lemmas are about those functions.
- **Asynchrony.** Asynchronous steps are explicit events:
  - `initZombies` is split at its `await` into `InitZombies` and `AnimationsLoaded`;
  - a firing of a `setInterval` callback is `Tick`;
  - the arrival of a loaded zombie model is `ZombieLoaded`;
  - interval timers are a set of live ids plus the id stored in `waveTimer`.
- **Cross-component hooks.** These are calls between the objects:
  - a zombie's punch calls `Player.TakeDamage(0.5)`;
  - a kill by a snowball calls `ZombieManager.OnZombieKilled`, which updates the counter;
  - damage refreshes the health bar;
  - death shows the death screen.

  `Player.BarShown` and `Player.DeathShown` state that the HUD agrees with the player.
  Every operation is proved to keep that agreement except `Player.Reset`: it brings the
  player back to life while the death screen stays up, as in the source, and
  `Hud.UIManager.Reset` then hides it.

Two behaviours of the code a reader may not expect:

- **No health clamp.** Health is not clamped at 0: fall damage of 5 taken at 4.5 health
  leaves -0.5. See `NoHealthClamp`.
- **Interval timers can leak.** The schedule can run more than one interval timer. This
  happens when `initZombies` or a reset starts while an earlier `initZombies` is still
  waiting for its animations: both continuations then start a timer, and the first one
  can never be cleared. The ordinary way there is the restart button. It is bound twice,
  in `UIManager.initUI` and in `main.js`, so one click runs `resetGame`, and with it
  `ZombieManager.reset`, twice in a row; `Waves.DoubleResetLeaks` shows that this leaves
  two timers from any settled schedule. A reset during the very first load is the rarer
  way, shown by `Waves.LeakedTimer`. `Waves.OrderlyPreserved` proves the invariant for
  every event that does not start an initialisation while another one is waiting.

## Model

| member | source | states |
|---|---|---|
| Hud.HealthPercent | js/classes/UIManager.js:37 | the bar width times the maximum health is 100 times the health |
| Hud.BandsPartition | js/classes/UIManager.js:40-46 | green exactly above 60 %, yellow exactly in (30, 60], red exactly at or below 30 % (negative included); so exactly one band applies |
| Hud.PercentMonotone | js/classes/UIManager.js:37 | more health never gives a smaller bar |
| Hud.BandMonotone | js/classes/UIManager.js:37-46 | less health never gives a better-looking colour |
| Hud.BandsOfFivePoints | js/classes/UIManager.js:37-46 | with 5 maximum health: green above 3, yellow in (1.5, 3], red at or below 1.5 |
| Hud.DecimalString | js/classes/UIManager.js:57 | the template-literal rendering of a count below 10^21 is a non-empty string of digits without a leading zero |
| Hud.DecimalRoundTrip | js/classes/UIManager.js:57 | reading the rendered count back gives the count |
| Hud.CounterTextReadsBack | js/classes/UIManager.js:56-58 | the counter is "Zombies: " followed by digits that read back as the kill count |
| Hud.CounterTextInjective | js/classes/UIManager.js:56-58 | different kill counts give different counter texts |
| Hud.UIManager.constructor | js/classes/UIManager.js:2-13 | the bar and counter start derived from the current health and kills; both screens hidden, which is assumed: the page starts with them hidden |
| Hud.UIManager.UpdateHealthBar | js/classes/UIManager.js:36-47 | the bar shows the percentage and its band; nothing else on screen changes |
| Hud.UIManager.UpdateZombieCounter | js/classes/UIManager.js:56-58 | the counter shows the kill count; nothing else changes |
| Hud.UIManager.ShowDeathScreen | js/classes/UIManager.js:76-80 | the death screen is shown; nothing else changes |
| Hud.UIManager.TogglePauseScreen | js/classes/UIManager.js:82-84 | the pause screen is shown exactly when asked; nothing else changes |
| Hud.UIManager.Reset | js/classes/UIManager.js:86-90 | the death screen is hidden, and the bar and counter are re-derived from the given health and kills |
| PlayerModel.ClampBound | js/classes/Player.js:174-180 | after the clamp the horizontal speed is at most 5; both horizontal components are scaled by one factor in (0, 1] and the vertical one is untouched |
| PlayerModel.MovedSpeedBound | js/classes/Player.js:150-196 | after handleMovement the horizontal speed is at most 5 whatever keys are held |
| PlayerModel.VerticalMotion | js/classes/Player.js:182-191 | the jump sets the vertical speed to 8 only on the floor with Space held (gravity then applies the same frame); on the floor otherwise no gravity; in the air gravity 9.8 |
| PlayerModel.FrictionOnlyOnFloor | js/classes/Player.js:154-158 | with no movement keys and within the limit, the horizontal velocity is scaled by 0.9 on the floor and kept in the air |
| PlayerModel.RestingStaysAtRest | js/classes/Player.js:150-196 | on the floor, at rest, with no keys, handleMovement changes nothing |
| PlayerModel.UprightPreserved | js/classes/Player.js:193-217 | translation by movement and by collision correction keeps end minus start equal to (0, 0.45, 0), through the whole frame |
| PlayerModel.ResetsRestoreUpright | js/classes/Player.js:252-258 | resetToSafePosition and reset leave the capsule upright from any state |
| PlayerModel.FloorComesFromContact | js/classes/Player.js:207-231 | on the floor after the collision step exactly when a contact's normal has y above 0.5; the safe position moves to the corrected top only then |
| PlayerModel.BounceDampsInwardSpeed | js/classes/Player.js:219-224 | velocity changes only when moving into the surface, by between 0 (excluded) and 5 along a unit normal, so the inward speed shrinks without turning outward |
| PlayerModel.NoCeiling | js/classes/Player.js:233-243 | the bounds box has no upper y limit |
| PlayerModel.BoundsCheckOutcome | js/classes/Player.js:233-243 | either the top is inside the box and nothing changes, or it was outside and the player is back at the safe position with zero velocity |
| PlayerModel.FallDamageNeedsLowSafePosition | js/classes/Player.js:144-146 | since the bounds check runs first, fall damage needs a safe position below y = -24.55 |
| PlayerModel.NoHealthClamp | js/classes/Player.js:294 | fall damage of 5 taken at 4.5 leaves -0.5 and kills |
| PlayerModel.RepeatedDamage | js/classes/Player.js:291-300 | repeated hits: a dead player takes none; while alive each hit subtracts exactly the amount; the killing hit leaves the health in (-amount, 0] and later hits are ignored |
| PlayerModel.RespawnIdempotent | js/classes/Player.js:308-317 | resetting twice is resetting once |
| PlayerModel.Player.constructor | js/classes/Player.js:8-18 | health 5 of 5, alive, capsule (0, 1.35, 0) to (0, 1.8, 0), zero velocity, safe position (0, 1.8, 0), no keys |
| PlayerModel.Player.KeyDown | js/classes/Player.js:105-109 | a key is recorded as held only when not paused and not dead |
| PlayerModel.Player.KeyUp | js/classes/Player.js:111-113 | a key is always released |
| PlayerModel.Player.Update | js/classes/Player.js:138-148 | paused or dead: nothing changes; otherwise the collider follows movement, collision, bounds and fall checks, and the health drops by 5 exactly on a fatal fall; the HUD keeps agreeing |
| PlayerModel.Player.HandleMovement | js/classes/Player.js:150-196 | the new collider, velocity and floor flag are those of the movement function |
| PlayerModel.Player.CheckCollisions | js/classes/Player.js:207-231 | the new collider state is that of the collision function of the octree answer |
| PlayerModel.Player.CheckWorldBounds | js/classes/Player.js:233-243 | the new collider state is that of the bounds function |
| PlayerModel.Player.CheckFallDamage | js/classes/Player.js:245-250 | below y = -25 the player takes 5 damage and is put back; otherwise nothing changes |
| PlayerModel.Player.ResetToSafePosition | js/classes/Player.js:252-258 | the top goes to the safe position, the bottom 0.45 below it, the velocity to zero |
| PlayerModel.Player.TakeDamage | js/classes/Player.js:291-300 | dead: nothing changes; alive: health drops by exactly the amount, the bar is refreshed, and die runs exactly when the health reaches 0 or less, so at most once per life |
| PlayerModel.Player.Die | js/classes/Player.js:302-306 | the player is dead and the death screen is shown |
| PlayerModel.Player.Reset | js/classes/Player.js:308-317 | health 5, alive, spawn capsule, zero velocity, safe position (0, 1.8, 0); keys kept; the bar shows full health |
| Waves.OrderlyHasOneTimer | js/classes/ZombieManager.js:16-25 | in an orderly schedule at most one interval timer runs, and it is the stored one |
| Waves.OrderlyPreserved | js/classes/ZombieManager.js:15-33 | starting an init with none pending, finishing one, a tick and a reset keep the schedule orderly |
| Waves.InitFinishedStartsFirstWave | js/classes/ZombieManager.js:19-25 | the continuation of initZombies sets wave 1 of 15, spawns one zombie and stores a new live timer |
| Waves.LeakedTimer | js/classes/ZombieManager.js:16-25 | constructor init, a reset before the animations arrive, then both continuations: timers 1 and 2 run, 2 is stored, the schedule is not orderly, and the next reset leaves timer 1 running |
| Waves.DoubleResetLeaks | js/classes/ZombieManager.js:192-200 | two resets in a row from a settled orderly schedule end, after both continuations, with two live timers, the second stored, and not orderly |
| Waves.TicksBeforeLastWave | js/classes/ZombieManager.js:25-28 | before the last wave, n ticks raise the wave by n, stop no timer, and spawn w+1, ..., w+n zombies |
| Waves.PastLastWaveSpawnsNothing | js/classes/ZombieManager.js:26-30 | a tick past the last wave spawns nothing and clears the stored timer |
| Waves.FullSchedule | js/classes/ZombieManager.js:15-33 | a whole game spawns 1 + 2 + ... + 15 = 120 zombies; the 15th tick clears the timer and later ticks spawn nothing |
| Zombies.SwitchAction | js/classes/ZombieManager.js:166-177 | the action becomes current exactly when the zombie has its clip (otherwise the current action stays); nothing else about the zombie changes |
| Zombies.SwitchActionEffect | js/classes/ZombieManager.js:166-177 | switchAction to the current action changes nothing, and a second call changes nothing |
| Zombies.SpawnedZombieIsIdle | js/classes/ZombieManager.js:64-86 | a zombie loaded with all clips is idle, has 3 health, no wait time and is not flagged |
| Zombies.AliveBands | js/classes/ZombieManager.js:106-144 | a live zombie takes exactly one band: walk and approach in (1.5, 15), attack at or below 1.5 (punching exactly when the wait reaches 1 second, which restarts it), idle from 15; health and the death fields unchanged |
| Zombies.CooldownInvariant | js/classes/ZombieManager.js:132-136 | the attack wait stays in [0, 1), so at most one punch per zombie per frame and only after a full cooldown |
| Zombies.ApproachMovesTowardsTarget | js/classes/ZombieManager.js:115-119 | a walking zombie moves exactly 1.5 times delta and comes that much closer to the player |
| Zombies.DeadStepEffect | js/classes/ZombieManager.js:91-95 | a dead zombie neither moves nor attacks; it plays the death clip |
| Zombies.DeathCountdown | js/classes/ZombieManager.js:146-157 | from its first dead frame the timer starts at 2 and loses each frame's delta; the zombie is flagged exactly when 2 seconds have passed |
| Zombies.KeptAppend | js/classes/ZombieManager.js:102 | the removal filter works piece by piece, so it keeps order |
| Zombies.KeptMembers | js/classes/ZombieManager.js:102 | the filter keeps exactly the unflagged zombies and never adds any |
| Zombies.DistanceScenario | js/classes/ZombieManager.js:109-143 | at distance 20 a zombie idles, at 10 it walks, at 1 it attacks |
| Zombies.RandomPosition | js/classes/ZombieManager.js:179-185 | spawn positions have y = 0, and for draws in [0, 1) x and z lie in [-20, 20) |
| Zombies.ZombieManager.constructor | js/classes/ZombieManager.js:5-13 | no zombies, no kills, no clips, and initZombies started |
| Zombies.ZombieManager.InitZombies | js/classes/ZombieManager.js:15-18 | the stored timer is cleared and one more initialisation waits |
| Zombies.ZombieManager.AnimationsLoaded | js/classes/ZombieManager.js:18-32 | the clips are stored, wave 1 of 15 starts one load, and a new timer is started and stored |
| Zombies.ZombieManager.Tick | js/classes/ZombieManager.js:25-32 | the wave advances; up to the last wave it loads that many zombies, past it the stored timer is cleared |
| Zombies.ZombieManager.SpawnWave | js/classes/ZombieManager.js:158-163 | past the last wave nothing; otherwise one load per wave number, at the drawn random positions, in order |
| Zombies.ZombieManager.ZombieLoaded | js/classes/ZombieManager.js:60-87 | the loaded zombie is appended, idle at its spawn position with the clips loaded so far |
| Zombies.ZombieManager.Update | js/classes/ZombieManager.js:90-104 | the roster becomes the stepped zombies without the flagged ones, in order; the player takes one 0.5 hit per punch and the HUD keeps agreeing |
| Zombies.ZombieManager.UpdateAliveZombie | js/classes/ZombieManager.js:106-144 | the zombie takes its band's step; a punch is exactly one takeDamage(0.5) |
| Zombies.ZombieManager.UpdateDeadZombie | js/classes/ZombieManager.js:146-157 | the zombie takes its dead step and no other zombie changes |
| Zombies.ZombieManager.OnZombieKilled | js/classes/ZombieManager.js:187-190 | the kill count grows by exactly 1 and the counter shows it |
| Zombies.ZombieManager.Reset | js/classes/ZombieManager.js:192-200 | the stored timer is cleared, the roster and kills are emptied, and initZombies starts again |
| Projectiles.FirstTarget | js/classes/ProjectileManager.js:68-72 | a target found is an index in range from the search start |
| Projectiles.Collide | js/classes/ProjectileManager.js:67-85 | a collision check keeps the number of zombies |
| Projectiles.Swept | js/classes/ProjectileManager.js:47-65 | an update keeps the pool size and the number of zombies |
| Projectiles.FirstTargetIsFirst | js/classes/ProjectileManager.js:68-72 | the target is a live zombie within 1 and every zombie before it is dead or out of reach; there is no target exactly when no zombie is in reach |
| Projectiles.CollideEffect | js/classes/ProjectileManager.js:67-85 | no zombie in reach: nothing changes; otherwise only the first in reach loses exactly 1 health, the sphere is parked and hidden, and it counts as a kill exactly when that leaves 0; dead zombies are untouched |
| Projectiles.StepSphereCountsKills | js/classes/ProjectileManager.js:73-77 | every kill a sphere scores is one more zombie without health |
| Projectiles.SweptCountsKills | js/classes/ProjectileManager.js:47-65 | over a whole update the kill count grows by exactly the number of zombies brought to 0 |
| Projectiles.StepSphereOnlyHurts | js/classes/ProjectileManager.js:67-85 | one sphere changes only zombie health, never raises it, and never touches a dead zombie |
| Projectiles.SweptOnlyHurts | js/classes/ProjectileManager.js:47-85 | over a whole update, likewise; so a zombie is counted as killed at most once |
| Projectiles.FrozenSphereIsInert | js/classes/ProjectileManager.js:49 | a sphere below y = -50 neither moves nor hits |
| Projectiles.ParkedIsFrozen | js/classes/ProjectileManager.js:80-81 | a parked sphere is hidden and frozen |
| Projectiles.ThrownBall | js/classes/ProjectileManager.js:37-42 | for a unit aim, a thrown ball starts 0.5 from the capsule top, flies at speed 20 and is shown |
| Projectiles.ProjectileManager.constructor | js/classes/ProjectileManager.js:3-31 | exactly 100 spheres, all parked at (0, -100, 0), hidden, with zero velocity; cursor 0 |
| Projectiles.ProjectileManager.ThrowBall | js/classes/ProjectileManager.js:33-45 | paused: nothing changes; otherwise only the cursor's sphere is replaced by the thrown ball and the cursor moves on by 1 modulo 100 |
| Projectiles.ProjectileManager.Update | js/classes/ProjectileManager.js:47-65 | the pool, the roster and the kill count become those of the sweep over all 100 spheres in order; the counter keeps showing the kills |
| Projectiles.ProjectileManager.CheckCollisions | js/classes/ProjectileManager.js:67-85 | the sphere and the roster become those of the collision function, and each kill is one onZombieKilled |
| Projectiles.MouseDown | js/classes/Player.js:115-120 | a throw happens only when the game is not paused, the player is alive and the pointer is locked; otherwise the pool and cursor are unchanged |
| Projectiles.ProjectileManager.Reset | js/classes/ProjectileManager.js:87-93 | every sphere is parked and hidden with its velocity kept; the cursor is 0 |
| LegacyZombie.DeadZombieRefires | js/classes/Zombie.js:23-29 | without a dead-guard, each further hit on a dead zombie fires the kill hook again |
| LegacyZombie.UnitHitsKillCount | js/classes/Zombie.js:5-29 | a new zombie hit n times for 1 each fires the kill hook n - 2 times (from the third hit on) |
| LegacyZombie.HurtAllLogsKills | js/classes/Zombie.js:23-29 | takeDamage called with each of a run of amounts subtracts their sum and appends exactly as many kill hooks as hits that left the health at or below 0, nothing else |
| LegacyZombie.FreshZombieUnitHits | js/classes/Zombie.js:5-29 | a new zombie hit n times for 1 each logs n - 2 kill hooks (none below 3 hits) |
| LegacyZombie.Zombie.constructor | js/classes/Zombie.js:2-11 | health 3, the spawn position, not flagged; the model and animations are requested |
| LegacyZombie.Zombie.Update | js/classes/Zombie.js:13-21 | a dead zombie only handles its death; a live one moves and animates |
| LegacyZombie.Zombie.TakeDamage | js/classes/Zombie.js:23-29 | health drops by exactly the amount, with no dead-guard; the kill hook fires whenever the health ends at or below 0; the health and log move as the single-hit function describes |

## Left out

- Rendering is not modelled. This covers the camera, meshes, lights, materials, mesh
  rotation, `lookAt`, animation mixers and fades, the debug capsule and
  `updateCameraPosition`. None of it affects the game state.
- The octree query `capsuleIntersect`, the floor raycast `checkIfOnFloor`, and the camera
  vectors from `getForwardVector` and `getSideVector` are three.js computations. They are
  inputs of `Player.Update`.
- Loading of model and animation files is not modelled. A completed model load is the
  `ZombieLoaded` event and completed clip loads are `AnimationsLoaded`. All four clips are
  assumed to arrive together.
- `Math.random()` answers are inputs (`Draw`). Timer delays (10 s) and the clock delta are
  not modelled: ticks are events, and `delta` is a parameter.
- Square roots and normalisation are replaced by their defining equations. Rounding of
  floating-point numbers is not modelled. Counts are rendered as decimal digits, which is
  what JavaScript writes below 10^21 (and exactly only below 2^53); kill counts stay far
  below that.
- The health bar's colour is the band itself; the CSS strings `#0f0`, `#ff0` and `#f00`
  written for the bands are not modelled.
- Pointer lock is not modelled: `initControls` and `controls.unlock()` in `die`. Whether
  the pointer is locked is an input of `MouseDown`, the mouse-down listener of
  `Player.js`. That listener lives in `Projectiles` because it calls `ThrowBall`.
- `Game.js` is not part of this model. That includes:
  - the render loop;
  - `togglePause`, which also calls `TogglePauseScreen`;
  - `resetGame`'s sequence of the four resets.

  While paused, `animate` returns before the player, zombie and projectile updates. So
  `ZombieManager.Update` and `ProjectileManager.Update` have no pause parameter: a paused
  frame simply does not call them. `Player.Update`, `Player.KeyDown`, `ThrowBall` and
  `MouseDown` take the `paused` flag because they test it themselves. Also not modelled:
  the Escape key is bound both in `Game.js` and in `main.js`; and the first delta after a
  pause includes the paused time.
- The five button listeners that `UIManager.initUI` attaches (start, VR, resume, quit,
  restart) are not modelled; they call into `Game.js` or reload the page. `main.js`
  attaches the same five again, so each click runs its action twice: one restart click
  resets twice (see `Waves.DoubleResetLeaks`), and one resume click toggles the pause
  twice, leaving it as it was.
- `SceneManager.js`, `AudioManager.js`, `VRManager.js` and `main.js` are not part of this
  model. Only the world-bounds box of `SceneManager.js` is used. `VRManager.js` calls a
  `throwBallVR` that does not exist.
- ZombieManager zombie records also hold a `position` that is a copy of the spawn
  position. It is never read afterwards, so it is not modelled. The model's position,
  which moves and is measured from, is `Zombie.position`.
- Removing dead zombies' meshes from the scene is not modelled. `this.animations`
  outliving a reset is modelled: `ZombieManager.Reset` keeps `animations`, and a later
  `ZombieLoaded` uses those clips.
- Hud.UIManager.ShowDeathScreen: the death text and the restart button that
  `showDeathScreen` also writes are not modelled separately. The `deathShown` flag
  stands for the whole death screen, restart button included, which is the way to
  `resetGame`.
- `Zombie.js` calls helpers the file does not define (`loadModel`, `setupAnimations`,
  `handleDeath`, `moveTowardsPlayer`, `updateAnimation`) and
  `zombieManager.registerZombieKill`, which ZombieManager does not define. These are
  recorded as hooks. The last one is not unknown: calling an undefined method throws a
  `TypeError`, so once a hit brings the health to 0 or below, `takeDamage` throws after
  the health has dropped. The model records the call as a `RegisterZombieKill` hook and
  does not model the exception.
