# Bor-mageddon simulation core in Dafny

This project models the discrete simulation state of the Bor-mageddon arcade game, apart from the Phaser rendering around it, and proves properties about it. It covers four groups.

- **The banknote arcade loop.**
  - Banknote enemies fall, bounce and split along the denomination chain 500B → 2 × 50B → 2 × 5M → 5 × STAR. Stars fade out.
  - The enemy manager spawns on a timer under a capacity, replaces a hit note with its split set, and raises the difficulty within bounds.
  - The Pang scene's frame has a pause gate and prunes beams. Each beam hits at most one note, the first in list order. Every touching note damages the player, and a game over ends the frame.
  - The wave counter cycles through 1..3.
  - The gore particle pool holds at most 200 particles and evicts the oldest first.
  - The player has an invulnerability window and a shot cooldown.
  - The score service keeps the score and the best score.
- **Weapons and projectiles.**
  - Ammunition and the fire cooldown gate every shot.
  - Beams and rakija bottles destroy themselves on a bounds test or on age. A bottle can be deflected once.
- **The enemy and boss archetypes.** Each of the twelve is a class:
  - the Gestapo ghoul, the Smederevac drone, the biometric enforcer, the hologram thug, the Algorithm, Slobodan the CEO, the BIA boss, the corrupted miner, the zombie partisan, the vampire chetnik, the Dizelcic and Mecha-Tito.
  - Each has its health counter, countdown cooldowns, distance bands, and attack locks. The locks are released by explicit completion methods.
- **Services.**
  - The profile statistics.
  - The event bus's listener registry.
  - The audio manager's comma-separated key lists and cache guard.

Each source file is one module. Each source class whose fields change in place is a Dafny `class` with those fields. Its methods state the new state in terms of the old, usually through a specification function of the module. Lemmas then prove what the game promises about those functions, such as:

- the split chain terminates;
- the particle pool stays bounded;
- a phase never goes down;
- `off` undoes `on`;
- a shooter fires at most once per period.

Quantities outside the model come in as parameters:

- The `Math.sqrt` distances are a `dist` argument, tied to the offsets by `dist * dist == dx * dx + dy * dy`.
- Every `Math.random()` draw is a real in [0, 1).
- Sines and cosines are reals in [-1, 1].
- Touch and overlap tests are booleans computed by Phaser.
- Each `delayedCall` and tween `onComplete` is a method that the caller invokes when the timer fires.

Timers and positions are exact reals.

The game's design description and its code disagree in a few places. The model follows the code:

- A `Weapon` never discards or unequips itself when its ammunition runs out. Firing an empty weapon just fails.
- `TheAlgorithm.takeDamage(amount)` removes up to `amount` pixels, not one. For a fractional amount the loop runs the ceiling of `min(amount, pixels)` times.
- Every archetype's `takeDamage` keeps returning `true` on each call after death, not only on the fatal one.
- `removeAllListeners` tests its argument for truthiness, so the empty event name clears every event, like no argument.
- The fan of a split note spreads over angles in [-π/2, π/2), so no split piece starts moving left.
- `MechaTito` can jump from phase 1 straight to phase 3 in one frame.
- `nextWave` can be called again on the next frame while the deferred respawn is pending, so a cleared wave can advance the counter more than once.

## Model

| member | source | states |
|---|---|---|
| Banknotes.Config | src/game/entities/Enemy.ts:14-47 | the denomination table: STAR alone has no split and a zero split count; every other note splits into the next tier down |
| Banknotes.SplitShrinks | src/game/entities/Enemy.ts:14-47 | each split yields a strictly smaller note worth strictly fewer points, so splitting ends at STAR |
| Banknotes.ClearingHits | src/game/entities/Enemy.ts:14-47 | the number of beam hits that clears a note and everything it splits into is at least one, and exactly one only for a STAR |
| Banknotes.ClearingA500B | src/game/entities/Enemy.ts:14-47 | clearing a 500B note takes 27 hits, a 5M note 6 |
| Banknotes.Spawned | src/game/entities/Enemy.ts:60-66 | a new bubble is active, not fading, at rest vertically, with the given horizontal speed or ±100 chosen by the coin draw |
| Banknotes.Advance | src/game/entities/Enemy.ts:96-138 | one frame keeps the bubble's kind and fading flag |
| Banknotes.AdvanceBounces | src/game/entities/Enemy.ts:100-137 | gravity, the floor bounce to an upward speed in (-250, -200], the wall bounces that point the horizontal speed back inward and keep its size, the fade timer that runs only for a fading STAR, and expiry exactly when that timer reaches 2 s; a bubble at or past a wall is clamped back inside: it leaves that wall inward at its own speed, one frame's travel from the wall |
| Banknotes.OnlyFadingStarsExpire | src/game/entities/Enemy.ts:122-137 | an active bubble leaves the frame inactive exactly when it is a fading STAR whose fade timer reaches 2 s |
| Banknotes.Faded | src/game/entities/Enemy.ts:140-144 | `startFade` sets the fading flag for a STAR only and changes nothing else |
| Banknotes.FanAngle | src/game/entities/Enemy.ts:163 | the i-th of n fan angles lies in [-π/2, π/2) |
| Banknotes.FanAngleBounds | src/game/entities/Enemy.ts:163 | the fraction i/n behind each fan angle lies in [0, 1) |
| Banknotes.Split | src/game/entities/Enemy.ts:158-171 | a STAR splits into nothing; any other note into exactly its split count of pieces of the next tier, the i-th at the i-th fan angle with speed 150·cos(angle) in [-150, 150] |
| Banknotes.SplitNeverMovesLeft | src/game/entities/Enemy.ts:158-171 | with a cosine that is non-negative on [-π/2, π/2], no split piece moves left |
| Banknotes.Enemy.State | src/game/entities/Enemy.ts:49-58 | the bubble's value snapshot keeps its kind and liveness |
| Banknotes.Enemy.constructor | src/game/entities/Enemy.ts:60-94 | the new bubble's state is `Spawned` |
| Banknotes.Enemy.Update | src/game/entities/Enemy.ts:96-138 | the new state is `Advance` of the old one |
| Banknotes.Enemy.FallAndBounce | src/game/entities/Enemy.ts:100-107 | gravity, then the floor bounce |
| Banknotes.Enemy.BounceOffWalls | src/game/entities/Enemy.ts:109-116 | the wall bounce |
| Banknotes.Enemy.MoveAndFade | src/game/entities/Enemy.ts:118-137 | the move by the velocity, then the STAR fade and its expiry |
| Banknotes.Enemy.StartFade | src/game/entities/Enemy.ts:140-144 | the new state is `Faded` of the old one |
| Banknotes.Enemy.Destroy | src/game/entities/Enemy.ts:135 | the bubble becomes inactive and nothing else changes |
| EnemyManagement.StatesOf | src/game/entities/EnemyManager.ts:83-85 | the list of bubble states has one entry per listed bubble, in list order |
| EnemyManagement.SpawnSpan | src/game/entities/EnemyManager.ts:17 | a random spawn column `100 + r·(width − 200)` lies in [100, width − 100] |
| EnemyManagement.AutoSpawned | src/game/entities/EnemyManager.ts:16-24 | an auto-spawned bubble is an active 500B, 100 px down, inside [100, width − 100] horizontally |
| EnemyManagement.WaveBubble | src/game/entities/EnemyManager.ts:27-30 | bubble i of a wave of `count` is an active 500B at x = 100 + (i/count)(width − 200), y in [80, 130) |
| EnemyManagement.WaveStates | src/game/entities/EnemyManager.ts:26-31 | a wave adds exactly `count` bubbles (none for a count that is not positive), the i-th being `WaveBubble(i)` |
| EnemyManagement.UpdateBounds | src/game/entities/EnemyManager.ts:33-54 | an update spawns at most one bubble; under the cap the list stays within it, at or over the cap (after split pieces or a wave) it does not grow; and it never brings in a STAR that is not fading unless one was already there |
| EnemyManagement.RemoveAt | src/game/entities/EnemyManager.ts:65 | `splice(i, 1)` keeps the elements before i and shifts those after it down by one |
| EnemyManagement.PieceStates | src/game/entities/EnemyManager.ts:70-78 | one new bubble per split piece, at the hit bubble's position with the piece's speed, STARs fading at once |
| EnemyManagement.SplitStates | src/game/entities/EnemyManager.ts:56-81 | a hit spawns exactly the split count of active next-tier bubbles at the hit position, at rest vertically, with the fan speeds, fading exactly when they are STARs |
| EnemyManagement.HitOutcome | src/game/entities/EnemyManager.ts:56-81 | the list after a hit is the old list without the hit bubble, followed by exactly the split set of that bubble; it is one shorter plus the split count |
| EnemyManagement.HitChangesCount | src/game/entities/EnemyManager.ts:56-81 | hitting a STAR shrinks the list by one; hitting any other note grows it |
| EnemyManagement.Harder | src/game/entities/EnemyManager.ts:91-95 | `increaseDifficulty` keeps the interval in [1500, 3000] and the cap in [10, 15], never lengthens the interval or lowers the cap, and leaves the bubbles and the spawn timer alone |
| EnemyManagement.DifficultyAfter | src/game/entities/EnemyManager.ts:91-95 | after k increases from a fresh manager the interval is max(1500, 3000 − 100k), the cap min(15, 10 + k) and the difficulty 1 + 0.2k |
| EnemyManagement.Survivors | src/game/entities/EnemyManager.ts:44-53 | the bubbles the update loop keeps all come from the list it started with |
| EnemyManagement.SurvivorsDistinct | src/game/entities/EnemyManager.ts:44-53 | the loop's splicing never lists a bubble twice |
| EnemyManagement.SurvivorStates | src/game/entities/EnemyManager.ts:44-53 | the kept bubbles hold exactly the advanced states of the active ones, in order |
| EnemyManagement.IndexOf | src/game/entities/EnemyManager.ts:63 | `indexOf` gives -1 exactly for a bubble not in the list, and otherwise a position holding it |
| EnemyManagement.IndexOfDistinct | src/game/entities/EnemyManager.ts:63 | in a list without repetitions `indexOf` finds each bubble at its own position |
| EnemyManagement.EnemyManager.Model | src/game/entities/EnemyManager.ts:4-10 | the manager's value snapshot: the bubbles' states and the spawn settings |
| EnemyManagement.EnemyManager.constructor | src/game/entities/EnemyManager.ts:6-14 | a new manager has no bubbles, timer 0, interval 3000, cap 10 and difficulty 1 |
| EnemyManagement.EnemyManager.SpawnEnemy | src/game/entities/EnemyManager.ts:16-24 | exactly one new bubble is appended, with the given or default column, row 100 and kind 500B; the settings are unchanged |
| EnemyManagement.EnemyManager.SpawnWave | src/game/entities/EnemyManager.ts:26-31 | the states grow by exactly `WaveStates(count)`; the old bubbles stay in front |
| EnemyManagement.EnemyManager.Update | src/game/entities/EnemyManager.ts:33-54 | the new snapshot is `UpdateSpec` of the old: timer, at most one auto-spawn under the cap, inactive bubbles dropped, active ones advanced, each with the bounce draw of its own position in the list |
| EnemyManagement.EnemyManager.AdvanceAll | src/game/entities/EnemyManager.ts:44-53 | the backward splice loop leaves exactly the advanced states of the active bubbles, in order |
| EnemyManagement.AdvancedOrigin | src/game/entities/EnemyManager.ts:44-53 | every bubble the update loop keeps is the advance of an active bubble of the old list, made with that bubble's own bounce draw |
| EnemyManagement.EnemyManager.AdvanceAt | src/game/entities/EnemyManager.ts:45-52 | one pass of that loop: the bubble at i is spliced out when inactive and advanced otherwise |
| EnemyManagement.EnemyManager.HandleHit | src/game/entities/EnemyManager.ts:56-81 | the hit bubble is destroyed and removed if listed, its split pieces are appended, and their number is the split count |
| EnemyManagement.EnemyManager.Forget | src/game/entities/EnemyManager.ts:62-66 | the hit bubble is no longer listed; the others keep their order |
| EnemyManagement.EnemyManager.SpawnPieces | src/game/entities/EnemyManager.ts:69-78 | one new bubble per piece is appended, in order |
| EnemyManagement.EnemyManager.SpawnPiece | src/game/entities/EnemyManager.ts:71-77 | one piece's bubble, fading when it is a STAR |
| EnemyManagement.EnemyManager.EnemyCount | src/game/entities/EnemyManager.ts:87-89 | the count is the number of listed bubbles |
| EnemyManagement.EnemyManager.IncreaseDifficulty | src/game/entities/EnemyManager.ts:91-95 | the new snapshot is `Harder` of the old |
| EnemyManagement.EnemyManager.Reset | src/game/entities/EnemyManager.ts:97-108 | every old bubble is destroyed and the manager is back to its initial snapshot |
| Pang.HitBurst | src/game/scenes/PangScene.ts:231-236 | a hit on a STAR sprays a blood splatter of intensity 1.5, any other note a dinar explosion, with the particle count of each |
| Pang.FirstHit | src/game/scenes/PangScene.ts:220-246 | the inner loop finds nothing exactly when the beam overlaps no bubble, and otherwise the first bubble in list order that it overlaps |
| Pang.FirstHitAt | src/game/scenes/PangScene.ts:220-246 | the first overlapped bubble is the one the inner loop breaks on |
| Pang.Fate | src/game/scenes/PangScene.ts:207-246 | a beam is dropped unscored exactly when it is inactive or above y = -50; otherwise it hits a bubble it overlaps, or it overlaps none and is kept |
| Pang.SweepFrom | src/game/scenes/PangScene.ts:204-247 | the backward loop resumed at index i is one step on top of the beams behind it |
| Pang.Unspliced | src/game/scenes/PangScene.ts:208-243 | `splice(i, 1)` removes exactly beam i and keeps the others in order |
| Pang.SweepAccounting | src/game/scenes/PangScene.ts:204-247 | each beam scores at most one bubble; every kept beam is active, on screen and one of the old beams; the score grows by exactly the value of the notes hit, and a best score that was at least the score still is; each hit sprays the burst drawn for its own beam |
| Pang.MissedBeamsSurvive | src/game/scenes/PangScene.ts:204-247 | an active on-screen beam that overlaps no bubble is still in the list after the loop |
| Pang.ContactsLoseAtMostOne | src/game/scenes/PangScene.ts:250-263 | however many bubbles overlap the player in one tick, it loses at most one hit point, exactly one when it was vulnerable and touched; the loop ends in a game over exactly when that hit took the last point |
| Pang.WaveAdvanced | src/game/scenes/PangScene.ts:274-282 | the wave counter stays within 1..3 and wraps to 1 exactly after the third wave, which also raises the level and the spawner's difficulty; one more respawn is due |
| Pang.RespawnSize | src/game/scenes/PangScene.ts:301 | a new wave has `min(2 + level, 5)` bubbles: at most five, at least two for a non-negative level |
| Pang.TouchedIs | src/game/scenes/PangScene.ts:250-263 | the contact stage of a tick is the contact loop over the current bubbles |
| Pang.TickFacts | src/game/scenes/PangScene.ts:182-272 | a tick keeps the wave in 1..3; a paused tick changes nothing; an unpaused tick ends either in one GAME_OVER event with wave and level unchanged or in the HUD refresh; level and best score never fall |
| Pang.TickHealth | src/game/scenes/PangScene.ts:182-272 | a tick costs the player at most one hit point, only when it was vulnerable; a game over follows only the hit that took the last point |
| Pang.Flown | src/game/entities/Player.ts:71-74 | a beam keeps its column, speed and flag, and one moving up rises during a positive frame |
| Pang.TickBeams | src/game/scenes/PangScene.ts:182-247 | after an unpaused tick every beam is active, at or below y = -50, and one of the beams as the physics step left them (as they were, while physics is paused) |
| Pang.PangScene.constructor | src/game/scenes/PangScene.ts:29-64 | `create()`: the score is reset, the player stands at (width/2, height-100) with full health, no beams, level 1, wave 1, and a first wave of two bubbles |
| Pang.PangScene.Shoot | src/game/scenes/PangScene.ts:147-154 | SPACE is ignored while paused or while the weapon is on cooldown; otherwise one beam is added at the player and the cooldown starts |
| Pang.PangScene.TogglePause | src/game/scenes/PangScene.ts:156-180 | ESC flips the paused flag and pauses or resumes the physics with it; nothing else of the game state changes |
| Pang.PangScene.Update | src/game/scenes/PangScene.ts:182-272 | one `update` is the model tick on the scene's state: the physics step flies the beams unless physics is paused, then the actors step, the beams resolve, the contacts resolve, then game over or the wave check and HUD |
| Pang.PangScene.StepActors | src/game/scenes/PangScene.ts:186-201 | the player, the bubbles (each with its own bounce draw) and the gore advance by one frame; the beams stay where the physics step left them |
| Pang.PangScene.FlyBeams | src/game/entities/Player.ts:71-74 | the arcade physics step: unless physics is paused every beam rises by 600 px/s for the frame; nothing else changes |
| Pang.PangScene.SweepBeams | src/game/scenes/PangScene.ts:204-247 | the beam stage of the tick on the whole scene |
| Pang.PangScene.ResolveBeams | src/game/scenes/PangScene.ts:204-247 | the backward beam loop leaves exactly the beams, bubbles, score and gore of the beam sweep, and leaves the spawner's settings alone |
| Pang.PangScene.SweepPass | src/game/scenes/PangScene.ts:205-246 | one pass of the beam loop at index i extends the sweep of the beams behind it by beam i |
| Pang.PangScene.BeamAt | src/game/scenes/PangScene.ts:205-246 | a beam's expiry or hit is resolved as one sweep step, and the caller is told whether to splice it out |
| Pang.PangScene.FateOf | src/game/scenes/PangScene.ts:207-246 | the expiry test and the inner loop agree with `Fate` |
| Pang.PangScene.FindHit | src/game/scenes/PangScene.ts:220-246 | the inner loop over `getEnemies()` returns the first overlapped bubble |
| Pang.PangScene.HitEnemyAt | src/game/scenes/PangScene.ts:227-239 | a hit adds the note's score, sprays its burst and replaces the bubble by its split set |
| Pang.PangScene.Reward | src/game/scenes/PangScene.ts:228-236 | the score grows by the note's value, the best score follows, and the burst is added when gore is on |
| Pang.PangScene.ResolveContacts | src/game/scenes/PangScene.ts:250-263 | the contact loop leaves the player and gore of the contact loop and reports whether a hit was fatal |
| Pang.PangScene.ContactAt | src/game/scenes/PangScene.ts:251-262 | one pass of the contact loop: a touch costs the player a hit and sprays blood at it, drawn for that bubble's position; a fatal hit stops the loop |
| Pang.PangScene.Settle | src/game/scenes/PangScene.ts:258-310 | after the contact loop: a game over pauses the physics and emits GAME_OVER with the final score; otherwise an empty field starts the next wave and the HUD is refreshed |
| Pang.PangScene.NextWave | src/game/scenes/PangScene.ts:274-304 | `nextWave()` is `WaveAdvanced` on the scene and spawns nothing yet |
| Pang.PangScene.WaveTweenComplete | src/game/scenes/PangScene.ts:299-302 | the wave tween's completion spawns `min(2 + level, 5)` bubbles and nothing else |
| Pang.PangScene.Shutdown | src/game/scenes/PangScene.ts:353-356 | `shutdown()` clears the gore and the manager and deactivates every bubble it held |
| Gore.Pick | src/game/systems/GoreManager.ts:54 | `colors[Math.floor(r * colors.length)]` is always one of the palette's colours |
| Gore.SplatterCount | src/game/systems/GoreManager.ts:37 | a splatter has `Math.floor(15 * intensity)` particles, none for a non-positive intensity |
| Gore.BloodParticle | src/game/systems/GoreManager.ts:45-57 | a blood particle starts at the hit point with full life, a lifespan in [0.5, 1.5), a size in [2, 6) and a blood colour |
| Gore.DinarParticle | src/game/systems/GoreManager.ts:72-84 | a dinar particle starts at the hit point with full life, a lifespan in [0.8, 1.3), a size in [3, 8) and a green colour |
| Gore.Splatter | src/game/systems/GoreManager.ts:34-59 | one splatter creates `SplatterCount` blood particles, the i-th from the i-th draw |
| Gore.Explosion | src/game/systems/GoreManager.ts:61-86 | one explosion creates twenty dinar particles, the i-th from the i-th draw |
| Gore.PushAllStep | src/game/systems/GoreManager.ts:40-58 | the spawn loop's pool after i + 1 insertions is one more insertion on the pool after i |
| Gore.PushAllKeepsNewest | src/game/systems/GoreManager.ts:40-58 | FIFO eviction: the pool after a burst is exactly the newest min(200, old + new) particles of the old pool followed by the burst |
| Gore.PushAllBound | src/game/systems/GoreManager.ts:18 | the pool never holds more than 200 particles and fills up to exactly min(200, old + new) |
| Gore.DecaySurvivors | src/game/systems/GoreManager.ts:92-114 | every particle left after an update has positive life and is an old particle moved by gravity and velocity, with `dt / maxLife` less life and the same colour, size and lifespan |
| Gore.DecayCount | src/game/systems/GoreManager.ts:92-114 | an update removes exactly the particles whose life runs out |
| Gore.Expiring | src/game/systems/GoreManager.ts:103-108 | the particles an update removes are old particles whose decayed life is not positive |
| Gore.GoreManager.constructor | src/game/systems/GoreManager.ts:14-25 | a new manager is enabled with an empty pool |
| Gore.GoreManager.SetEnabled | src/game/systems/GoreManager.ts:27-32 | `setEnabled` sets the flag, and disabling empties the pool |
| Gore.GoreManager.SpawnBloodSplatter | src/game/systems/GoreManager.ts:34-59 | an enabled manager pushes the splatter with FIFO eviction; a disabled one changes nothing |
| Gore.GoreManager.SpawnDinarExplosion | src/game/systems/GoreManager.ts:61-86 | an enabled manager pushes the explosion with FIFO eviction; a disabled one changes nothing |
| Gore.GoreManager.Insert | src/game/systems/GoreManager.ts:41-48 | one insertion shifts the oldest particle out at capacity, then pushes the new one |
| Gore.GoreManager.Update | src/game/systems/GoreManager.ts:88-115 | the backward loop leaves exactly the decayed survivors, in their old order |
| Gore.GoreManager.Clear | src/game/systems/GoreManager.ts:117-120 | `clear()` empties the pool and keeps the enabled flag |
| Gore.GoreManager.Destroy | src/game/systems/GoreManager.ts:122-125 | `destroy()` empties the pool |
| Players.Damaged | src/game/entities/Player.ts:84-102 | an invulnerable player is unharmed and the hit is not fatal; otherwise it loses one point and becomes invulnerable; the hit is fatal exactly when it was vulnerable with at most one point |
| Players.AtMostOneLossPerWindow | src/game/entities/Player.ts:84-102 | any number of hits between two invulnerability expiries costs at most one point |
| Players.HorizontalVelocity | src/game/entities/Player.ts:39-46 | left wins over right, speed 300 px/s, no key stops the player |
| Players.Player.constructor | src/game/entities/Player.ts:3-34 | a new player has 3 of 3 hit points, is vulnerable, can shoot and stands still |
| Players.Player.Update | src/game/entities/Player.ts:36-54 | the velocity follows the keys; the alpha stays in [0, 1] and is 1 when vulnerable; the damage state is untouched |
| Players.Player.Shoot | src/game/entities/Player.ts:56-82 | on cooldown nothing happens; otherwise a beam appears 30 px above the player moving up at 600 px/s and the cooldown starts |
| Players.Player.ShootCooldownElapsed | src/game/entities/Player.ts:77-79 | the 500 ms event allows shooting again |
| Players.Player.TakeDamage | src/game/entities/Player.ts:84-102 | `takeDamage()` is `Damaged` on the player's state |
| Players.Player.InvulnerabilityElapsed | src/game/entities/Player.ts:97-99 | the 2000 ms event ends invulnerability |
| Players.Player.ResetHealth | src/game/entities/Player.ts:112-114 | health is restored to the maximum and nothing else changes |
| Scores.ScoreService.constructor | src/game/services/ScoreService.ts:3-6 | the service starts at zero score and zero best score |
| Scores.ScoreService.AddScore | src/game/services/ScoreService.ts:15-20 | the score grows by the points, and the best score follows it when passed |
| Scores.ScoreService.ResetScore | src/game/services/ScoreService.ts:30-32 | the score returns to zero and the best score is kept |
| Scores.HighNeverDecreases | src/game/services/ScoreService.ts:15-20 | across any run of additions the best score never falls and is at least every running score reached |
| Scores.SuffixFor | src/game/services/ScoreService.ts:34-44 | the unit is the largest of K, M, B and T not above the score, or none below 1000 |
| Scores.FormatScore | src/game/services/ScoreService.ts:34-44 | the shown value times the unit gives back the score, and lies in [1, 1000) for K, M and B |
| Scores.SuffixMonotone | src/game/services/ScoreService.ts:34-44 | a higher score never gets a smaller unit |
| Weapons.PresetsWellFormed | src/game/entities/Weapon.ts:14-42 | each of the pistol, SMG and shotgun presets has a non-empty magazine, a positive fire rate and speed and positive damage |
| Weapons.Loaded | src/game/entities/Weapon.ts:52-56 | a new weapon has a full magazine and may fire |
| Weapons.Direction | src/game/entities/Weapon.ts:72 | the direction multiplier is 1 exactly when facing right, and -1 otherwise |
| Weapons.MuzzleShot | src/game/entities/Weapon.ts:72-87 | the requested projectile starts at the muzzle offset mirrored by the facing, with the preset's speed, colour and damage |
| Weapons.Fired | src/game/entities/Weapon.ts:62-95 | a pull fails exactly when on cooldown or empty, and then changes nothing; otherwise it uses one round, starts the cooldown, records the facing and requests the muzzle shot |
| Weapons.AmmoConserved | src/game/entities/Weapon.ts:62-95 | over any run of pulls and cooldowns the magazine stays in [0, start], each requested projectile used one round, and nothing refills it |
| Weapons.ShotsNeedCooldowns | src/game/entities/Weapon.ts:89-92 | a run fires at most one more shot than the cooldowns that elapse in it, and none more when it starts on cooldown |
| Weapons.Weapon.constructor | src/game/entities/Weapon.ts:52-56 | a new weapon holds its preset with a full magazine |
| Weapons.Weapon.Fire | src/game/entities/Weapon.ts:62-95 | `fire` is `Fired` on the weapon's state; it returns true exactly when a projectile is requested, and keeps the magazine in range |
| Weapons.Weapon.CooldownElapsed | src/game/entities/Weapon.ts:90-92 | the `fireRate` event allows firing again and changes nothing else |
| Weapons.Weapon.IsEmpty | src/game/entities/Weapon.ts:119-121 | the weapon is empty exactly when no round is left |
| Weapons.Weapon.GetAmmo | src/game/entities/Weapon.ts:123-125 | the rounds left |
| Projectiles.OffScreenBox | src/game/entities/RakijaProjectile.ts:58-62 | a bottle is kept exactly while it lies in the screen grown by 50 px on each side; leaving it vertically is enough to be dropped |
| Projectiles.Projectile.constructor | src/game/entities/Projectile.ts:7-32 | the defaults are speed 600 and straight up, and the velocity is direction times speed |
| Projectiles.Projectile.Update | src/game/entities/Projectile.ts:34-39 | the shot is destroyed exactly when it is more than 50 px above the top or below the bottom, and does not move otherwise |
| Projectiles.Projectile.PhysicsStep | src/game/entities/Projectile.ts:27-31 | the arcade physics step moves the shot by its velocity times the frame time and keeps its velocity and flag |
| Projectiles.RakijaProjectile.constructor | src/game/entities/RakijaProjectile.ts:18-44 | the bottle starts undeflected with zero lifetime, aimed along the unit vector to its target at 220 px/s |
| Projectiles.RakijaProjectile.Update | src/game/entities/RakijaProjectile.ts:46-63 | the lifetime grows by delta, and the bottle is destroyed once it has lived 5000 ms or left the grown screen; the update throws exactly when the lifetime test destroys a live bottle that is not left of x = -50, because the screen test then reads the scene the bottle has left |
| Projectiles.RakijaProjectile.PhysicsStep | src/game/entities/RakijaProjectile.ts:39-43 | the arcade physics step moves the bottle by its velocity times the frame time and changes nothing else |
| Projectiles.RakijaProjectile.Deflect | src/game/entities/RakijaProjectile.ts:68-86 | the first deflection turns the bottle toward the source at 1.5 times its speed; later ones change nothing |
| Projectiles.RakijaProjectile.Damage | src/game/entities/RakijaProjectile.ts:89 | a bottle deals 2 damage |
| Rings.FadeSurvival | src/game/entities/BIABoss.ts:99-111 | over a run of frames a ring survives exactly while its alpha outlasts the total fade, and it has then grown by the total growth and faded by the total fade |
| BIABosses.SonicRing | src/game/entities/BIABoss.ts:114-121 | `fireLRAD` adds an active ring 20 px below the boss at alpha 0.8 and unit scale |
| BIABosses.LradSpacing | src/game/entities/BIABoss.ts:92-96 | after a ring the clamped cooldown stays positive until 3000 ms of frames have passed, so no two rings are closer than that |
| BIABosses.BIABoss.constructor | src/game/entities/BIABoss.ts:12-22 | the boss starts with 60 of 60 health, a spent LRAD cooldown and no rings |
| BIABosses.BIABoss.Update | src/game/entities/BIABoss.ts:69-112 | the hover phase and flicker advance; alpha is 0.7 exactly when the flicker sine exceeds 0.8; the boss tracks the player at 90 px/s outside 30 px; a spent clamped cooldown fires one ring and resets to 3000; the ring loop grows and fades every ring and drops the faded and inactive ones |
| BIABosses.BIABoss.FireLRAD | src/game/entities/BIABoss.ts:114-121 | exactly one sonic ring is appended and nothing else changes |
| BIABosses.BIABoss.TakeDamage | src/game/entities/BIABoss.ts:123-130 | health drops by the amount and the result says whether it is at or below zero |
| BIABosses.BIABoss.Destroy | src/game/entities/BIABoss.ts:137-141 | the rings go with the boss |
| BioMetricEnforcers.Choose | src/game/entities/BioMetricEnforcer.ts:76-90 | a slamming enforcer does nothing else; otherwise slam at under 55 px when its cooldown is spent, else discharge at under 120 px when that cooldown is spent, else pursue beyond 30 px |
| BioMetricEnforcers.SlamFirst | src/game/entities/BioMetricEnforcer.ts:79-85 | at slam range with both cooldowns spent, the slam wins over the discharge |
| BioMetricEnforcers.DischargeSpacing | src/game/entities/BioMetricEnforcer.ts:68-85 | no second discharge comes before 5000 ms of frames have passed since the last |
| BioMetricEnforcers.DischargeRing | src/game/entities/BioMetricEnforcer.ts:124-133 | a discharge ring is active, at the enforcer's position, at alpha 0.9 |
| BioMetricEnforcers.BioMetricEnforcer.constructor | src/game/entities/BioMetricEnforcer.ts:12-22 | the enforcer starts with 7 health, spent cooldowns, not slamming, no rings |
| BioMetricEnforcers.BioMetricEnforcer.Update | src/game/entities/BioMetricEnforcer.ts:63-106 | the cooldowns run down only while positive; then the chosen move: a slam locks and resets its cooldown, a discharge adds one ring and resets its cooldown, a pursuit steps 65 px/s toward the player; while locked the rings stand still, otherwise they grow and fade |
| BioMetricEnforcers.BioMetricEnforcer.PerformSlam | src/game/entities/BioMetricEnforcer.ts:108-111 | the slam lock is taken and the cooldown reset to 2800 |
| BioMetricEnforcers.BioMetricEnforcer.SlamEnded | src/game/entities/BioMetricEnforcer.ts:118-120 | the slam tween's completion releases the lock and nothing else |
| BioMetricEnforcers.BioMetricEnforcer.ElectricalDischarge | src/game/entities/BioMetricEnforcer.ts:124-133 | exactly one ring is added and the discharge cooldown reset to 5000 |
| BioMetricEnforcers.BioMetricEnforcer.TakeDamage | src/game/entities/BioMetricEnforcer.ts:135-142 | health drops by the amount and the result says whether it is at or below zero |
| BioMetricEnforcers.BioMetricEnforcer.Destroy | src/game/entities/BioMetricEnforcer.ts:149-153 | the rings go with the enforcer |
| CorruptedMiners.Choose | src/game/entities/CorruptedMiner.ts:73-80 | a slamming miner does nothing; otherwise it slams under 60 px with a spent cooldown, else advances beyond 20 px |
| CorruptedMiners.CorruptedMiner.constructor | src/game/entities/CorruptedMiner.ts:11-20 | the miner starts with 8 health, ready, unarmed and with a spent cooldown |
| CorruptedMiners.CorruptedMiner.Update | src/game/entities/CorruptedMiner.ts:58-81 | the cooldown runs down while positive, even mid-slam; then a slam starts the windup, an advance steps 50 px/s toward the player, and a locked or close miner stays put |
| CorruptedMiners.CorruptedMiner.StartSlam | src/game/entities/CorruptedMiner.ts:83-93 | `startSlam` locks the miner, disarms the knockdown and starts the windup |
| CorruptedMiners.CorruptedMiner.WindupDone | src/game/entities/CorruptedMiner.ts:93-99 | the 800 ms windup's completion starts the strike, still locked and unarmed |
| CorruptedMiners.CorruptedMiner.StrikeDone | src/game/entities/CorruptedMiner.ts:99-102 | the 150 ms strike's completion arms the knockdown and starts the recovery delay |
| CorruptedMiners.CorruptedMiner.SlamReset | src/game/entities/CorruptedMiner.ts:102-108 | after the 400 ms recovery the miner is free and disarmed, and only now is the cooldown reset to 3500 |
| CorruptedMiners.CorruptedMiner.TakeDamage | src/game/entities/CorruptedMiner.ts:115-122 | health drops by the amount and the result says whether it is at or below zero; the slam is not interrupted |
| HologramThugs.Window | src/game/entities/HologramThug.ts:15-16 | the invulnerable phase lasts 2000 ms and the vulnerable one 3000 ms, both positive |
| HologramThugs.Cycle | src/game/entities/HologramThug.ts:59-73 | once the timer reaches the current phase's window the phase flips and the timer restarts at zero; before that nothing changes |
| HologramThugs.CycleInvariant | src/game/entities/HologramThug.ts:56-73 | the timer stays below the current window, and a frame flips the phase exactly when it reaches the window |
| HologramThugs.PhaseHolds | src/game/entities/HologramThug.ts:56-73 | a phase is never cut short: frames adding up to less than what is left of the window keep the phase and add up on the timer |
| HologramThugs.HologramThug.constructor | src/game/entities/HologramThug.ts:10-21 | the thug starts vulnerable with 3 health and all timers at zero |
| HologramThugs.HologramThug.Update | src/game/entities/HologramThug.ts:49-86 | the cooldown runs down while positive, the phase timer grows, the cycle steps; alpha stays in [0, 0.8] and is 0.8 when vulnerable; the thug chases at 110 px/s beyond 30 px |
| HologramThugs.HologramThug.TakeDamage | src/game/entities/HologramThug.ts:88-97 | an invulnerable thug ignores the hit and reports it not fatal; otherwise health drops by the amount |
| ZombiePartisans.Choose | src/game/entities/ZombiePartisan.ts:63-70 | a stabbing zombie does nothing; otherwise it stabs under 45 px with a spent cooldown, else advances beyond 20 px |
| ZombiePartisans.StabSpacing | src/game/entities/ZombiePartisan.ts:55-76 | no second stab comes before 1800 ms of frames have passed since the last |
| ZombiePartisans.ZombiePartisan.constructor | src/game/entities/ZombiePartisan.ts:11-18 | the zombie starts with 3 health, not stabbing, with a spent cooldown |
| ZombiePartisans.ZombiePartisan.Update | src/game/entities/ZombiePartisan.ts:51-71 | the cooldown runs down while positive; then a stab locks and resets the cooldown, an advance steps 70 px/s toward the player, and a locked or close zombie stays put |
| ZombiePartisans.ZombiePartisan.PerformStab | src/game/entities/ZombiePartisan.ts:73-75 | the stab lock is taken and the cooldown reset to 1800 |
| ZombiePartisans.ZombiePartisan.StabEnded | src/game/entities/ZombiePartisan.ts:82-84 | the stab tween's completion releases the lock and nothing else |
| ZombiePartisans.ZombiePartisan.TakeDamage | src/game/entities/ZombiePartisan.ts:88-95 | health drops by the amount and the result says whether it is at or below zero |
| VampirChetniks.Choose | src/game/entities/VampirChetnik.ts:73-87 | a leaping vampire does nothing; otherwise it leaps when strictly between 100 and 250 px with a spent leap cooldown, else claws under 50 px with a spent claw cooldown, else pursues beyond 30 px |
| VampirChetniks.BandsDisjoint | src/game/entities/VampirChetnik.ts:76-82 | the leap and claw bands never overlap: under 50 px with the claw ready, a free vampire always claws |
| VampirChetniks.VampirChetnik.constructor | src/game/entities/VampirChetnik.ts:10-20 | the vampire starts with 4 health, neither leaping nor clawing, with spent cooldowns |
| VampirChetniks.VampirChetnik.Update | src/game/entities/VampirChetnik.ts:60-88 | both cooldowns run down while positive; then a leap locks toward the player's position and resets its cooldown, a claw resets its own, a pursuit steps 160 px/s toward the player; a leaping vampire stays locked |
| VampirChetniks.VampirChetnik.PerformLeap | src/game/entities/VampirChetnik.ts:90-99 | the leap lock is taken, the cooldown reset to 2500 and the landing point recorded |
| VampirChetniks.VampirChetnik.LeapEnded | src/game/entities/VampirChetnik.ts:100-102 | the leap tween's completion leaves the vampire on the landing point, unlocked |
| VampirChetniks.VampirChetnik.PerformClaw | src/game/entities/VampirChetnik.ts:106-110 | a claw marks the vampire clawing and resets the claw cooldown to 1000, without locking it |
| VampirChetniks.VampirChetnik.ClawEnded | src/game/entities/VampirChetnik.ts:111-114 | the 200 ms timer ends the claw and nothing else |
| VampirChetniks.VampirChetnik.IsAttacking | src/game/entities/VampirChetnik.ts:128 | the vampire is attacking exactly while clawing or leaping |
| VampirChetniks.VampirChetnik.TakeDamage | src/game/entities/VampirChetnik.ts:117-124 | health drops by the amount and the result says whether it is at or below zero |
| TheAlgorithms.Ceil | src/game/entities/TheAlgorithm.ts:72-73 | the least integer not below the amount |
| TheAlgorithms.Removed | src/game/entities/TheAlgorithm.ts:72-79 | the pop loop runs `min(amount, n)` passes rounded up: none for a non-positive amount, every pixel for an amount of at least n |
| TheAlgorithms.WholeHitRemovesMin | src/game/entities/TheAlgorithm.ts:72-79 | a whole-number hit removes exactly `min(amount, n)` pixels |
| TheAlgorithms.Layout | src/game/entities/TheAlgorithm.ts:22-29 | twenty pixels, each offset within 40 px of the centre on both axes |
| TheAlgorithms.TheAlgorithm.constructor | src/game/entities/TheAlgorithm.ts:9-29 | the swarm starts with twenty pixels in the drawn layout and one hit point per pixel |
| TheAlgorithms.TheAlgorithm.Update | src/game/entities/TheAlgorithm.ts:40-65 | the swarm clock runs; the swarm chases at 90 px/s beyond 20 px; pixels and health are unchanged |
| TheAlgorithms.TheAlgorithm.TakeDamage | src/game/entities/TheAlgorithm.ts:71-81 | the newest `Removed(amount, n)` pixels are popped, health drops by as many, and the swarm is destroyed exactly when health is spent or no pixel is left |
| TheAlgorithms.TheAlgorithm.TakeAoEDamage | src/game/entities/TheAlgorithm.ts:86-88 | an area hit is the same pop loop, five pixels by default |
| SlobodanCEOs.Choose | src/game/entities/SlobodanCEO.ts:100-105 | the boss advances beyond 80 px; within 80 px it swipes when its attack cooldown is spent and holds otherwise |
| SlobodanCEOs.HitDamage | src/game/entities/SlobodanCEO.ts:155 | a headshot deals double damage, a body hit the amount itself |
| SlobodanCEOs.StormSpacing | src/game/entities/SlobodanCEO.ts:89-111 | no second storm comes before 8000 ms of frames have passed since the last |
| SlobodanCEOs.Volley | src/game/entities/SlobodanCEO.ts:137-141 | one storm schedules eight drops, all aimed at the player's x when it was called |
| SlobodanCEOs.DropAt | src/game/entities/SlobodanCEO.ts:142-149 | a drop appears within 100 px either side of the aim, 200 px above the boss, falling at 250 to 350 px/s |
| SlobodanCEOs.Fallen | src/game/entities/SlobodanCEO.ts:146-148 | a drop falls by its own speed times the frame time, keeping its column, speed and flag |
| SlobodanCEOs.FallenOut | src/game/entities/SlobodanCEO.ts:114-120 | after a physics step a drop is pruned exactly when it is inactive or has fallen below the screen; a frame long enough to cover the distance at 250 px/s always prunes it |
| SlobodanCEOs.SlobodanCEO.constructor | src/game/entities/SlobodanCEO.ts:14-26 | the boss starts with 30 of 30 health, spent cooldowns, no drops, its hitboxes on its head and torso |
| SlobodanCEOs.SlobodanCEO.Update | src/game/entities/SlobodanCEO.ts:77-121 | the hitboxes follow the position before the move; the boss faces the player; both cooldowns run down while positive; it advances at 40 px/s, swipes or holds as `Choose` says; a spent storm cooldown within 400 px schedules a volley and resets to 8000; drops that are inactive or below the screen are pruned |
| SlobodanCEOs.SlobodanCEO.PhysicsStep | src/game/entities/SlobodanCEO.ts:146-148 | the arcade physics step drops every storm projectile for the frame and keeps the boss's other fields; the world-bounds clamp of the boss's own body is not modelled |
| SlobodanCEOs.SlobodanCEO.MeleeAttack | src/game/entities/SlobodanCEO.ts:123-127 | the swipe starts and the attack cooldown resets to 4000 |
| SlobodanCEOs.SlobodanCEO.MeleeEnded | src/game/entities/SlobodanCEO.ts:128-131 | the 300 ms timer ends the swipe and nothing else |
| SlobodanCEOs.SlobodanCEO.HyperInflationStorm | src/game/entities/SlobodanCEO.ts:137-152 | eight delayed drop callbacks are scheduled, in order, and nothing else changes |
| SlobodanCEOs.SlobodanCEO.StormDropDue | src/game/entities/SlobodanCEO.ts:140-150 | the next callback fires: an active boss gains one drop at its aim; a destroyed boss gains none |
| SlobodanCEOs.SlobodanCEO.TakeDamage | src/game/entities/SlobodanCEO.ts:154-166 | health drops by the hit's damage, double for a headshot, and the result says whether it is at or below zero |
| SlobodanCEOs.SlobodanCEO.Destroy | src/game/entities/SlobodanCEO.ts:176-182 | the drops go with the boss and it is no longer active, so later storm callbacks do nothing |
| MechaTitos.TransitionIsMax | src/game/entities/MechaTito.ts:98-106 | the transition moves to the larger of the current phase and the one the health ratio calls for (phase 3 at or below 0.33, phase 2 at or below 0.66); the speed becomes 45 or 60 exactly when the phase changes |
| MechaTitos.PhaseNeverDecreases | src/game/entities/MechaTito.ts:98-106 | over any run of frames the phase never goes down, and it reaches at least the phase every health reading called for |
| MechaTitos.SkipsPhaseTwo | src/game/entities/MechaTito.ts:100-102 | a single frame can jump from phase 1 straight to phase 3 |
| MechaTitos.SummonPoint | src/game/entities/MechaTito.ts:133-134 | a partisan is summoned 150 px to one side of the boss and within 20 px of its height |
| MechaTitos.TeleportPoint | src/game/entities/MechaTito.ts:169-170 | a teleport lands 120 px to one side of the player and within 20 px of its height |
| MechaTitos.StepStages | src/game/entities/MechaTito.ts:89-121 | a frame is the transition, then the phase's behaviour, then the beam cleanup |
| MechaTitos.StepKeepsPhase | src/game/entities/MechaTito.ts:98-112 | a frame never lowers the phase, reaches at least the phase the health calls for, and does not touch the health |
| MechaTitos.SummonRule | src/game/entities/MechaTito.ts:107-138 | a frame calls the summon callback exactly when the boss is in phase 1 after the transition, its clamped cooldown is spent and a callback is registered; the cooldown is then 5000 |
| MechaTitos.LaserRule | src/game/entities/MechaTito.ts:151-178 | phase 1 never fires; phases 2 and 3 fire exactly when the clamped attack cooldown is spent, resetting it to 2500 and 1500 |
| MechaTitos.CooldownsNonNegative | src/game/entities/MechaTito.ts:94-96 | the clamped cooldowns never go negative |
| MechaTitos.CleanupKeepsBurning | src/game/entities/MechaTito.ts:114-120 | after a frame no inactive beam is left, and every beam that was burning is still there |
| MechaTitos.MechaTito.constructor | src/game/entities/MechaTito.ts:18-31 | the boss starts in phase 1 with 50 health, speed 35, spent cooldowns, no beams and no summon callback |
| MechaTitos.MechaTito.SetSummonCallback | src/game/entities/MechaTito.ts:85-87 | a callback is registered and nothing else changes |
| MechaTitos.MechaTito.Update | src/game/entities/MechaTito.ts:89-121 | one `update` is `Step` on the boss's state |
| MechaTitos.MechaTito.RunClocks | src/game/entities/MechaTito.ts:93-106 | the phase clock runs, the cooldowns run down clamped at zero, and the transition is applied |
| MechaTitos.MechaTito.UpdatePhase1 | src/game/entities/MechaTito.ts:124-138 | phase 1 patrols toward the player's column beyond 200 px and summons when due |
| MechaTitos.MechaTito.UpdatePhase2 | src/game/entities/MechaTito.ts:141-158 | phase 2 chases beyond 100 px and fires when the cooldown allows |
| MechaTitos.MechaTito.UpdatePhase3 | src/game/entities/MechaTito.ts:161-179 | phase 3 flickers, teleports beside the player when due and fires when the cooldown allows |
| MechaTitos.MechaTito.FireBrotherhoodLaser | src/game/entities/MechaTito.ts:181-200 | one active beam from the eyes toward the target is appended with a fresh id |
| MechaTitos.MechaTito.LaserExpired | src/game/entities/MechaTito.ts:197-199 | the beam's timer deactivates it and nothing else |
| MechaTitos.MechaTito.TakeDamage | src/game/entities/MechaTito.ts:202-209 | health drops by the amount, the result says whether it is at or below zero, and the phase waits for the next frame |
| MechaTitos.MechaTito.Destroy | src/game/entities/MechaTito.ts:217-221 | the beams go with the boss |
| Dizelcics.Choose | src/game/entities/Dizelcic.ts:69-82 | a spray starts exactly when the player is strictly between 40 and 120 px with the spray cooldown spent; failing that, a charge starts under 150 px with the charge cooldown spent and no charge running |
| Dizelcics.Glitches | src/game/entities/Dizelcic.ts:127-130 | a frame glitches the player exactly when it sprays from under 80 px with a callback registered, so only with the player between 40 and 80 px |
| Dizelcics.Moved | src/game/entities/Dizelcic.ts:84-88 | within 10 px of the player the scout does not move |
| Dizelcics.PursuitDistance | src/game/entities/Dizelcic.ts:84-88 | beyond 10 px a frame's step closes the distance to the player by the step taken |
| Dizelcics.SpeedFor | src/game/entities/Dizelcic.ts:84 | the scout walks at 250 px/s exactly while charging and at 120 px/s otherwise |
| Dizelcics.SprayMist | src/game/entities/Dizelcic.ts:107-115 | a spray adds one active mist with a fresh id |
| Dizelcics.MistTowardPlayer | src/game/entities/Dizelcic.ts:107-110 | the mist appears on the line to the player, 40 px from the scout |
| Dizelcics.Drifted | src/game/entities/Dizelcic.ts:111-114 | a mist drifts by its own velocity times the frame time, keeping its number, velocity and flag |
| Dizelcics.Dizelcic.constructor | src/game/entities/Dizelcic.ts:11-23 | the scout starts with 5 health, not charging, spent cooldowns, no mists and no glitch callback |
| Dizelcics.Dizelcic.SetGlitchCallback | src/game/entities/Dizelcic.ts:49-51 | a callback is registered and nothing else changes |
| Dizelcics.Dizelcic.Update | src/game/entities/Dizelcic.ts:53-97 | both cooldowns run down while positive; a spray resets its cooldown, adds one mist toward the player and glitches as `Glitches` says; a charge starts the charge without touching its cooldown; the scout then walks at its current speed; inactive mists are pruned |
| Dizelcics.Dizelcic.AerosolAmbush | src/game/entities/Dizelcic.ts:99-131 | the spray cooldown is reset to 4000, one mist is appended, and the callback is called once when the player is under 80 px and a callback is set |
| Dizelcics.Dizelcic.MistFaded | src/game/entities/Dizelcic.ts:124 | the fade's completion deactivates that mist, through `Retire`, and nothing else |
| Dizelcics.Dizelcic.PhysicsStep | src/game/entities/Dizelcic.ts:111-114 | the arcade physics step drifts every mist for the frame and keeps the scout's other fields; the world-bounds clamp of the scout's own body is not modelled |
| Dizelcics.Dizelcic.ChargeEnded | src/game/entities/Dizelcic.ts:77-81 | the 500 ms timer ends the charge, and only now is the charge cooldown reset to 3000 |
| Dizelcics.Dizelcic.TakeDamage | src/game/entities/Dizelcic.ts:135-142 | health drops by the amount and the result says whether it is at or below zero |
| Dizelcics.Dizelcic.Destroy | src/game/entities/Dizelcic.ts:152-156 | the mists go with the scout |
| GestapoGhouls.StanceFor | src/game/entities/GestapoGhoul.ts:67-74 | the ghoul approaches beyond 230 px, backs off under 170 px and holds in between |
| GestapoGhouls.MovedDistance | src/game/entities/GestapoGhoul.ts:67-74 | an approach closes the distance to the player by a step at 55 px/s, a retreat opens it by 60% of a step, a hold leaves it |
| GestapoGhouls.Luger | src/game/entities/GestapoGhoul.ts:94-108 | a round leaves the pistol 18 px to the side the player is on, at the ghoul's height, aimed at the player |
| GestapoGhouls.Flown | src/game/entities/GestapoGhoul.ts:103-105 | a round keeps its aim and flag, and a round with no aim stays put |
| GestapoGhouls.FlownTravel | src/game/entities/GestapoGhoul.ts:94-105 | in a frame of `dt` seconds an aimed round covers exactly `300 dt` px, along its aim and not against it |
| GestapoGhouls.FireRateBound | src/game/entities/GestapoGhoul.ts:77-81 | from a fresh timer, n rounds take at least n times 2200 ms of frames |
| GestapoGhouls.GestapoGhoul.constructor | src/game/entities/GestapoGhoul.ts:10-18 | the ghoul starts with 3 health, a zero fire timer and no rounds |
| GestapoGhouls.GestapoGhoul.Update | src/game/entities/GestapoGhoul.ts:57-92 | the ghoul keeps its range as `Moved` says; the fire timer grows and, once at 2200 ms with the player under 350 px, resets and fires one round; rounds that are inactive or off the screen grown by 50 px are pruned |
| GestapoGhouls.GestapoGhoul.FireLuger | src/game/entities/GestapoGhoul.ts:94-108 | exactly one round is appended and nothing else changes |
| GestapoGhouls.GestapoGhoul.PhysicsStep | src/game/entities/GestapoGhoul.ts:103-105 | the arcade physics step flies every round along its aim for the frame and keeps the ghoul's other fields; the world-bounds clamp of the ghoul's own body is not modelled |
| GestapoGhouls.GestapoGhoul.TakeDamage | src/game/entities/GestapoGhoul.ts:110-117 | health drops by the amount and the result says whether it is at or below zero |
| GestapoGhouls.GestapoGhoul.Destroy | src/game/entities/GestapoGhoul.ts:123-127 | the rounds go with the ghoul |
| DroneSmederevacs.DropShot | src/game/entities/DroneSmederevac.ts:79-87 | a shot leaves 15 px below the drone, active, falling at 200 px/s |
| DroneSmederevacs.Fallen | src/game/entities/DroneSmederevac.ts:84-85 | a shot falls by its own speed times the frame time, keeping its column, speed and flag |
| DroneSmederevacs.FallenOut | src/game/entities/DroneSmederevac.ts:70-76 | after a physics step a shot is pruned exactly when it is inactive or has fallen below the screen |
| DroneSmederevacs.FallenAllAt | src/game/entities/DroneSmederevac.ts:84-85 | a run of physics steps moves a shot by its speed times their total time |
| DroneSmederevacs.ShotLeaves | src/game/entities/DroneSmederevac.ts:69-76 | a shot falling at 200 px/s is pruned once the frames add up to more than its distance to the bottom at that speed |
| DroneSmederevacs.FireRateBound | src/game/entities/DroneSmederevac.ts:63-67 | from a fresh timer, n shots take at least n times 2000 ms of frames |
| DroneSmederevacs.DroneSmederevac.constructor | src/game/entities/DroneSmederevac.ts:10-18 | the drone starts with 2 health, zero timers and no shots |
| DroneSmederevacs.DroneSmederevac.Update | src/game/entities/DroneSmederevac.ts:46-77 | the hover phase advances and the drone bobs by half its sine; it follows the player's column at 120 px/s beyond 20 px; the fire timer grows and at 2000 ms resets and drops one shot; shots that are inactive or below the screen are pruned |
| DroneSmederevacs.DroneSmederevac.PhysicsStep | src/game/entities/DroneSmederevac.ts:84-85 | the arcade physics step drops every shot for the frame and changes nothing else |
| DroneSmederevacs.DroneSmederevac.FireProjectile | src/game/entities/DroneSmederevac.ts:79-87 | exactly one shot is appended and nothing else changes |
| DroneSmederevacs.DroneSmederevac.TakeDamage | src/game/entities/DroneSmederevac.ts:89-96 | health drops by the amount and the result says whether it is at or below zero |
| DroneSmederevacs.DroneSmederevac.Destroy | src/game/entities/DroneSmederevac.ts:106-110 | the shots go with the drone |
| Profiles.Updated | src/game/services/ProfileService.ts:38-42 | without a profile nothing changes; with one the score is added, one more game is counted and the name is kept |
| Profiles.StatsAccumulate | src/game/services/ProfileService.ts:38-46 | after any sequence of games the profile counts each game once, sums their scores and keeps its name; without a profile nothing is recorded and `COMRADE` stays |
| Profiles.ProfileService.constructor | src/game/services/ProfileService.ts:12-14 | the service starts with no profile |
| Profiles.ProfileService.SetLocalProfile | src/game/services/ProfileService.ts:27-36 | a fresh profile with the given name, zero score and zero games replaces any earlier one, and `getUsername` then gives that name |
| Profiles.ProfileService.UpdateStats | src/game/services/ProfileService.ts:38-42 | the profile becomes `Updated` of the old one |
| Profiles.ProfileService.GetUsername | src/game/services/ProfileService.ts:44-46 | the stored name, or `COMRADE` when there is no profile |
| EventBuses.Without | src/game/EventBus.ts:31 | filtering a listener out never lengthens the list |
| EventBuses.WithoutExactly | src/game/EventBus.ts:28-33 | `off` removes every registration of the listener and keeps every other listener, in order |
| EventBuses.WithoutAbsent | src/game/EventBus.ts:28-33 | removing a listener that is not registered changes nothing |
| EventBuses.Added | src/game/EventBus.ts:21-26 | `on` appends the listener to its event's list, creating it if missing, and leaves every other event alone |
| EventBuses.Removed | src/game/EventBus.ts:28-33 | `off` keeps the set of known events, filters the listener out of its event's list and leaves every other event alone |
| EventBuses.OffUndoesOn | src/game/EventBus.ts:21-33 | registering a new listener and removing it again leaves every event's listeners as they were |
| EventBuses.RemoveAll | src/game/EventBus.ts:42-48 | a non-empty event name drops only that event; no name, or the empty name, clears every event |
| EventBuses.GameEventBus.constructor | src/game/EventBus.ts:10-12 | the bus starts with no listeners |
| EventBuses.GameEventBus.On | src/game/EventBus.ts:21-26 | the registry becomes `Added` of the old one |
| EventBuses.GameEventBus.Off | src/game/EventBus.ts:28-33 | the registry becomes `Removed` of the old one |
| EventBuses.GameEventBus.Emit | src/game/EventBus.ts:35-40 | the callbacks invoked are exactly the event's listeners in registration order, none for an unknown event |
| EventBuses.GameEventBus.RemoveAllListeners | src/game/EventBus.ts:42-48 | the registry becomes `RemoveAll` of the old one |
| Audio.Split | src/game/services/AudioManager.ts:26 | splitting on commas always yields at least one piece |
| Audio.SplitJoin | src/game/services/AudioManager.ts:26 | the pieces hold no comma and joining them with commas gives back the list |
| Audio.TrimStart | src/game/services/AudioManager.ts:26 | what is left does not start with white space and is no longer than the input |
| Audio.TrimStartSuffix | src/game/services/AudioManager.ts:26 | the left trim keeps a suffix and drops only white space |
| Audio.TrimEnd | src/game/services/AudioManager.ts:26 | what is left does not end with white space and is no longer than the input |
| Audio.TrimEndPrefix | src/game/services/AudioManager.ts:26 | the right trim keeps a prefix and drops only white space |
| Audio.TrimOffset | src/game/services/AudioManager.ts:26 | the trimmed key starts at an offset from which it fits inside the original |
| Audio.TrimmedKey | src/game/services/AudioManager.ts:26 | a trimmed key is a run of the original with no surrounding white space, and trimming is idempotent |
| Audio.TrimAll | src/game/services/AudioManager.ts:26 | the pieces are trimmed one for one |
| Audio.RunWithoutComma | src/game/services/AudioManager.ts:26 | every run of a comma-free piece is comma-free |
| Audio.TrimmedPiece | src/game/services/AudioManager.ts:26 | each trimmed piece is comma-free and has no surrounding white space |
| Audio.KeyListKeys | src/game/services/AudioManager.ts:26 | a key is in the list exactly when it is a non-empty trimmed piece |
| Audio.KeyListClean | src/game/services/AudioManager.ts:26 | every listed key is non-empty, comma-free and has no surrounding white space |
| Audio.SplitNoComma | src/game/services/AudioManager.ts:26 | a comma-free list is a single piece |
| Audio.SplitFirst | src/game/services/AudioManager.ts:26 | a comma-free first piece is split off whole |
| Audio.TrimPlain | src/game/services/AudioManager.ts:26 | a key without surrounding white space trims to itself |
| Audio.BreakTail | src/game/services/AudioManager.ts:41 | the tail of the break group splits into its last two keys |
| Audio.BreakPieces | src/game/services/AudioManager.ts:41 | the break group splits into its three keys |
| Audio.BreakTrimmed | src/game/services/AudioManager.ts:41 | the three break keys are already trimmed |
| Audio.BreakGroup | src/game/services/AudioManager.ts:41 | the break group parses to exactly `break_1`, `break_2`, `break_3` |
| Audio.Pick | src/game/services/AudioManager.ts:27-28 | an empty list gives nothing; otherwise the floor of the draw times the length picks a key of the list |
| Audio.Sounded | src/game/services/AudioManager.ts:15-19 | at most one key sounds, and it sounds exactly when a key was given and the cache holds it |
| Audio.AudioManager.constructor | src/game/services/AudioManager.ts:10-12 | the manager starts with nothing played |
| Audio.AudioManager.Play | src/game/services/AudioManager.ts:15-19 | the key is handed to the sound system only when it is cached |
| Audio.AudioManager.PlayRandom | src/game/services/AudioManager.ts:25-30 | at most one key is played: the cached key picked from the parsed list, nothing for an empty list |
| Common.Sign | src/game/entities/DroneSmederevac.ts:58-60 | `Math.sign` times its argument is the argument's magnitude, and it is zero only at zero |
| Common.Retire | src/game/entities/MechaTito.ts:197-199 | a timer callback for body number `id` switches off exactly the bodies with that number and leaves every other one as it was (the laser's 300 ms timer and the mist's 1500 ms fade both use it) |
| Common.RetireIdempotent | src/game/entities/Dizelcic.ts:118-125 | switching off twice is switching off once |
| Common.CountDown | src/game/entities/ZombiePartisan.ts:55 | a cooldown that is not positive is left alone; a positive one drops by the frame time, never below minus one frame |
| Common.ClampedCountDown | src/game/entities/MechaTito.ts:94-96 | the clamped cooldown never goes negative, never rises, and is zero exactly when the frame time covers it |
| Common.StepAlongDistance | src/game/entities/ZombiePartisan.ts:56-68 | a step of `s` along the unit vector toward a target at distance `d` leaves it at distance abs(d - s); a negative step backs away |
| Common.FilterMap | src/game/entities/GestapoGhoul.ts:84-91 | filtering never lengthens the list |
| Common.FilterMapAppend | src/game/entities/GestapoGhoul.ts:84-91 | filtering distributes over concatenation, so an entry appended before the cleanup is filtered like the rest |
| Common.FilterMapOrigin | src/game/entities/GestapoGhoul.ts:84-91 | every surviving entry is the update of some entry of the original list |
| Common.KeepExactly | src/game/entities/GestapoGhoul.ts:84-91 | a pure filter keeps an element exactly when it was there and passes the test |
| Common.KeepIsSubsequence | src/game/entities/GestapoGhoul.ts:84-91 | a pure filter keeps the survivors in their original order |
| Common.PruneBackward | src/game/entities/GestapoGhoul.ts:84-91 | the reverse loop that updates or splices each entry leaves exactly the in-order filter of the list |
| Common.HitResults | src/game/entities/ZombiePartisan.ts:88-95 | a run of `takeDamage` calls reports one flag per call |
| Common.HitsAccumulate | src/game/entities/ZombiePartisan.ts:88-95 | after a run of hits the last call reports death exactly when the starting health less the total damage is not positive |
| Common.DeathIsFinal | src/game/entities/ZombiePartisan.ts:88-95 | with non-negative damage, once a call reports death every later call does too |
| Common.StaysDead | src/game/entities/ZombiePartisan.ts:88-95 | from non-positive health, every call of a run with non-negative damage reports death |
| Common.CooldownSpacing | src/game/entities/ZombiePartisan.ts:55 | a cooldown reset to `c` stays positive, at `c` less the elapsed time, until frames adding up to `c` have passed |
| Common.NonNegativeSum | src/game/entities/ZombiePartisan.ts:55 | non-negative frame times add up to a non-negative elapsed time |
| Common.ClampedRunValue | src/game/entities/MechaTito.ts:94-96 | the clamped cooldown over a run of frames is the reset value less the elapsed time, floored at zero |
| Common.Interval | src/game/entities/GestapoGhoul.ts:77-81 | a frame fires exactly when the timer plus the frame time reaches the period and the shooter is ready; firing resets the timer to zero, otherwise the frame time is added |
| Common.ShotsNeedTime | src/game/entities/GestapoGhoul.ts:77-81 | over a run of frames, the shots times the period plus the final timer never exceed the starting timer plus the elapsed time |
| Common.IntervalRunNonNegative | src/game/entities/GestapoGhoul.ts:77-81 | from a non-negative timer and frames the timer never goes negative |
| Common.ShotBudget | src/game/entities/GestapoGhoul.ts:77-81 | from a fresh timer, `n` shots need at least `n` periods of elapsed time |

## Left out

- Rendering is not modelled. This covers shapes, colours, text, depth sorting, the `setScale` facing flip, tint flashes, alpha and scale tweens, and the hover and flicker sine animations. Their inputs appear only where they feed game logic.
- The fading star's flicker (src/game/entities/Enemy.ts:125-131) only toggles an alpha, so it is left out. The star's `fadeTimer` and its self-destruction are modelled.
- The pixel orbit animation of the Algorithm (src/game/entities/TheAlgorithm.ts:47-54) only places graphics, so it is left out.
- The weapon's muzzle flash, `getMaxAmmo`, `getName`, `getConfig` and `destroy` are left out as presentation or plain field reads.
- Mecha-Tito's laser beam is modelled by its origin, its target and its active flag. The length and angle it is drawn with are not modelled.
- Getters that return a field unchanged are not separate members; the model reads the field. These include `getHealth`, `getMaxHealth`, `getDamage`, `getPhase`, `getCurrentScore`, `getHighScore`, `getCurrentProfile`, `getProjectiles`, `getSonicRings`, `getDischargeRings`, `getSprayMists`, `getLaserBeams`, `getStormProjectiles`, `getPixelCount`, `getIsInvulnerable`, `getIsAoEVulnerable`, `getBanknoteType`, `getConfig` and `getVelocityX`. The hitbox positions of Slobodan are modelled.
- The arcade physics step is a method of its own, `PhysicsStep` or `FlyBeams`, that the caller runs between two updates. It moves the beams, shots, bottles, Luger rounds, drone shots, storm projectiles and mists by their velocities. The player's own motion under physics is not modelled: `Player.update` sets its horizontal speed, but the move, its clamp at the world bounds and the offset of its body are left to the engine, so the player stands where it was placed.
- SlobodanCEOs.SlobodanCEO.PhysicsStep, Dizelcics.Dizelcic.PhysicsStep and GestapoGhouls.GestapoGhoul.PhysicsStep: these keep the enemy's `x` and `y`. The world-bounds clamp of the enemies' own bodies is not modelled. Every enemy except the drone and the BIA boss calls `body.setCollideWorldBounds(true)`: GestapoGhoul.ts:54, SlobodanCEO.ts:66, Dizelcic.ts:46, MechaTito.ts:82, CorruptedMiner.ts:55, ZombiePartisan.ts:48, VampirChetnik.ts:57, BioMetricEnforcer.ts:60, HologramThug.ts:46 and TheAlgorithm.ts:37. The engine's step then holds each body, placed by its `setOffset`, inside the 1920×1080 world of src/main.ts:13-14. In the model the enemies' positions are not bounded. A ghoul that retreats past the left edge keeps walking left; in the game its body would stop at the edge. The enemies' `update` methods move them by assigning `x` and `y`, and those moves are modelled as written.
- The `RectangleToRectangle` overlap tests are boolean inputs computed outside the model.
- `Math.sqrt`, `Math.sin` and `Math.cos` values are inputs tied to their arguments only by the facts the logic needs: a distance squares to the sum of squares, a sine or cosine lies in [-1, 1], and a cosine of an angle in [-π/2, π/2] is not negative.
- `Math.random()` draws are inputs in [0, 1).
- Tweens are modelled by their end state only. For example, the vampire's leap lands on its target, and the intermediate frames are not modelled.
- GestapoGhouls.Luger: the round stores its aim as the offset to the target, and `Flown` turns that offset into a speed of 300 px/s with the aim's length passed in.
- GestapoGhouls.Flown: a round fired at a target on the ghoul's own position stays put. The source divides 0 by 0 there and gives the round an undefined velocity.
- GestapoGhouls.Moved: with the player exactly on the ghoul, a retreat leaves the ghoul in place. The source divides by a zero distance there.
- Projectiles.RakijaProjectile.constructor: requires a positive distance to the target, because the source divides by it.
- Projectiles.RakijaProjectile.Deflect: requires a positive distance to the source on the first call, for the same reason.
- Projectiles.RakijaProjectile.Update: an update on a bottle that is already destroyed is modelled as a plain update. In the source it reads the scene the bottle has left and throws, at a point that depends on the Phaser version.
- The singletons' `getInstance` and the shared `eventBus`, `scoreService` and `profileService` instances are not modelled; the model passes each service object explicitly.
- A profile's `id`, `created_at` and `avatar_url` are not modelled, because they come from `crypto.randomUUID`, the clock and a constant `null`.
- Scores.FormatScore: gives the scaled value and the suffix. The one-decimal rounding of `toFixed(1)` and the string it builds are not modelled.
- `AudioManager.stopAll` and the sound `config` argument are not modelled, because they go straight to Phaser's sound system.
- Audio.TrimStart: treats as white space the ASCII spaces and line breaks, no-break space, the byte-order mark and the line and paragraph separators. The other Unicode space separators that JavaScript's `trim` also strips are not modelled.
- Audio.TrimEnd: uses the same white-space set as `TrimStart`, so it misses the same Unicode space separators at the end of a string.
- Event listeners are identified by number. Their arguments, their effects and listeners that re-register while `emit` runs are not modelled.
- The game-over overlay, the restart key and the HUD texts are not modelled. The events the scene emits are recorded in order.
- Scene navigation, menus, the React HUD, the leaderboard and its network queries, and the character carousel are not part of this model.
