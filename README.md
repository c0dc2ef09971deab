# Forip browser games, modelled in Dafny

This project models five small canvas games from the Forip repository, each one script.
It covers their state, their per-frame and per-event logic, and their collision, scoring and timer rules.

- **Neon Blaster** (`games/neon-blaster/script.js`) is a platform shooter with a 60-second round, 100 hit points, enemies that chase the player, and bullets that hit walls and enemies.
- **Cyber Pong** (`games/cyber-pong/script.js`) is two-player pong: the mouse moves one paddle and the keys move the other.
- **Cosmic Dodge** (`games/cosmic-dodge/script.js`) is a ship dodging falling meteors while the spawn interval shrinks with the score.
- **Bayam** (`games/bayam/script.js`) is a 30-second tapping game that grows a spinach plant.
- **Whack-a-Droid** (`games/whack-a-droid/script.js`) is a 30-second whack-a-mole with random holes and random up-times.

Each game is a module with a `class Game` whose fields are the script's module-level variables.
Records the script mutates field by field (the player, the ball, the ship) are datatype values held in a field.
Collections (bullets, enemies, particles, meteors, stars, holes) are `seq` fields that the methods reassign.
Each event handler and each frame function is a method with field-level `modifies` clauses.
Its `ensures` ties the new state to a reference function of the old state and the inputs.
The reference functions and the lemmas about them carry the properties.

Two shared modules sit under the games:

- `Geometry` holds the open-box overlap test the scripts write out with four comparisons, and proves it means "some point lies inside both boxes".
- `ForEachSplice` models JavaScript's `arr.forEach((x, i) => { ...; if (gone) arr.splice(i, 1); })`:
  - the bound is fixed at the starting length;
  - indices are visited in increasing order;
  - an index past the current end is passed over;
  - after a splice the element behind the removed one moves into the visited slot and is not updated in that pass.

  It proves this loop equal to a recursive reference (`SkipSweep`), and from that the bookkeeping used by every game (count kept plus count removed equals the starting count, and so on).

Inputs from outside the script are parameters:

- Math.random() results are draw records or streams of reals in [0, 1).
- Date.now() is an integer `now`.
- The canvas size is a pair of constants.
- Math.atan2/cos/sin appear as a `heading` or `deflect` function, whose meaning is stated where it is used.
- Timers are the host calling the callback methods.

## Model

| member | source | states |
|---|---|---|
| Geometry.SharedPoint | games/cyber-pong/script.js:74-86 | The four-comparison box test holds whenever two open boxes share an interior point, and for non-empty boxes it implies such a point exists. |
| ForEachSplice.Splice | games/neon-blaster/script.js:230 | `splice(i, 1)` removes slot i: the prefix is kept, the suffix moves down one and the length drops by one. An index past the end changes nothing. |
| ForEachSplice.LoopIsSweep | games/neon-blaster/script.js:222-231 | From any point, the rest of the forEach loop with its fixed bound gives the same array, visited values and removal count as the recursive skip-sweep reference. |
| ForEachSplice.ForEachIsSkipSweep | games/neon-blaster/script.js:222-231 | The whole forEach+splice pass equals the skip-sweep reference. |
| ForEachSplice.SweepIsLive | games/neon-blaster/script.js:264-269 | The array the pass leaves equals the array-only sweep that the class loops keep as their invariant. |
| ForEachSplice.SweepCounts | games/neon-blaster/script.js:264-269 | Kept plus removed equals the starting count. The removed count equals the number of visited values found dead. No more values are visited than there were elements. |
| ForEachSplice.SweepKeeps | games/neon-blaster/script.js:264-269 | Every element left after a pass is either a visited survivor that is not dead or an original element that was passed over. |
| ForEachSplice.SpliceSkipsSuccessor | games/cosmic-dodge/script.js:95-116 | When the first element dies, the one behind it ends up in front without being updated in that pass. |
| ForEachSplice.NoDeathIsMap | games/neon-blaster/script.js:264-269 | When no element dies the pass is a plain element-wise update. |
| NeonBlaster.Lower | games/neon-blaster/script.js:112 | `Lower` keeps the length and maps A-Z to a-z character by character, leaving every other character as it is. That is all the w/a/s/d switch can tell apart. |
| NeonBlaster.PressRules | games/neon-blaster/script.js:111-127 | W/A/D in either case set or clear exactly their flag. A key name longer than one character changes nothing. |
| NeonBlaster.Shot | games/neon-blaster/script.js:148-162 | `shoot` changes only the bullet list and the cooldown. |
| NeonBlaster.Fire | games/neon-blaster/script.js:167-169 | The shooting step changes only the bullet list and the cooldown. |
| NeonBlaster.FireCooldown | games/neon-blaster/script.js:144-169 | With the button held and the delay at most 1, one bullet of life 50 is appended and the delay becomes 10. Otherwise the delay counts down to 0 and no bullet is added. |
| NeonBlaster.HeldFireShots | games/neon-blaster/script.js:144-169 | Holding the button for n runs of the shooting step adds exactly the number of shots the cooldown schedule allows. |
| NeonBlaster.HeldFireFromRest | games/neon-blaster/script.js:144-169 | From a cold gun, t+1 runs of the shooting step with the button held fire t/10 + 1 bullets: one every 10 runs. |
| NeonBlaster.Clock | games/neon-blaster/script.js:171-178 | The timer step changes only the clock, the running flag and the game-over screen. |
| NeonBlaster.Spawn | games/neon-blaster/script.js:180-182 | The spawn step changes only the frame counter and the enemy list. |
| NeonBlaster.NewEnemyRules | games/neon-blaster/script.js:80-94 | With draws in [0, 1), a new enemy enters at the left edge iff the first draw is above 0.5, and otherwise at the right edge. Its y is in [0, H-100), it is 25 by 25, and it flies inwards at a speed from 1 up to 3. |
| NeonBlaster.NextFrame | games/neon-blaster/script.js:181-182 | Counting one frame crosses a multiple of 60 exactly when the new count is divisible by 60. |
| NeonBlaster.SpawnSchedule | games/neon-blaster/script.js:80-94 | Over n frames, one enemy is appended per multiple of 60 reached and the old enemies stay in front. |
| NeonBlaster.Move | games/neon-blaster/script.js:184-201 | The physics step changes only the player and hp. |
| NeonBlaster.MoveRules | games/neon-blaster/script.js:184-201 | Velocity comes from the keys or from friction 0.8, with the jump impulse -15 only when not already jumping. Gravity 0.5 is added. The x position is clamped to the canvas and a free move is kept exactly. y moves by the new dy. |
| NeonBlaster.Ground | games/neon-blaster/script.js:203-219 | The platform pass changes only the player. |
| NeonBlaster.NoLandingFrom | games/neon-blaster/script.js:206-219 | When no platform from k on is landed on, the pass leaves the player alone. |
| NeonBlaster.FirstLanding | games/neon-blaster/script.js:206-219 | The first landing platform j sets jumping false, dy 0 and stands the player on top of j. Later platforms no longer apply. |
| NeonBlaster.Grounding | games/neon-blaster/script.js:203-219 | The player is still jumping after the pass iff no platform was landed on (then only the flag changes). Otherwise dy is 0 and the player stands on a platform that was landed on. |
| NeonBlaster.FirstIndex | games/neon-blaster/script.js:206-219 | When some platform is landed on, there is a first one. |
| NeonBlaster.FlyBullets | games/neon-blaster/script.js:221-231 | The bullet pass changes only the bullet list. |
| NeonBlaster.BulletPass | games/neon-blaster/script.js:221-231 | The bullets left are the forEach+splice pass's survivors. Kept plus removed equals the starting count, removals are the visited bullets with life at most 0, and every surviving bullet was visited with life above 0 or was passed over. |
| NeonBlaster.Burst | games/neon-blaster/script.js:96-108 | `createParticles` adds exactly `amount` particles. |
| NeonBlaster.BurstContents | games/neon-blaster/script.js:96-108 | Old particles are kept in front. Each new particle starts at the burst point with its own draws and life 30. |
| NeonBlaster.BurstGrows | games/neon-blaster/script.js:96-108 | A burst of amount+1 is the burst of amount plus one more spark drawn for the next slot. |
| NeonBlaster.Fade | games/neon-blaster/script.js:263-269 | The particle pass changes only the particle list. |
| NeonBlaster.ParticlePass | games/neon-blaster/script.js:263-269 | The particles left are the pass's survivors, and kept plus removed equals the starting count. When every particle has life above 1, each one is just moved and aged. |
| NeonBlaster.TouchesMeansMeet | games/neon-blaster/script.js:244-245 | The enemy/player test holds when the two boxes share a point, and for non-empty boxes only then. |
| NeonBlaster.Fight | games/neon-blaster/script.js:233-261 | The enemy pass changes only hp, score, particles, enemies and bullets. |
| NeonBlaster.HitsAccounting | games/neon-blaster/script.js:252-260 | The inner bullet loop for one enemy leaves hp alone. For its number of hits it adds 10 points and 15 particles each, removes one bullet each, and removes at most one enemy each. There are no hits exactly when no bullet in the range lies inside the enemy, and then nothing changes. |
| NeonBlaster.VisitAccounting | games/neon-blaster/script.js:234-261 | One enemy's turn: at most one player hit, costing 10 hp and adding 10 particles, and the bullet hits scored as above. The enemy list shrinks by the player hit and by at most the bullet hits. The player is hit exactly when the moved enemy touches the player. Nothing is hit exactly when the moved enemy touches neither the player nor any bullet, and then only that enemy's slot changes. |
| NeonBlaster.FightAccounting | games/neon-blaster/script.js:233-261 | The whole enemy pass: hp drops 10 per player hit and score rises 10 per bullet hit. Particles, bullets and enemies change by exactly or at most those counts. Both counts are 0 exactly when every visited enemy, after its move, touches neither the player nor any bullet. |
| NeonBlaster.FrameClock | games/neon-blaster/script.js:164-178 | A running frame takes 1/60 s off the clock, floored at 0, and counts one frame. The game keeps running iff time is left and hp > 0. The game-over screen shows otherwise. |
| NeonBlaster.FrameStopped | games/neon-blaster/script.js:164-165 | A frame of a stopped game changes nothing. |
| NeonBlaster.FrameScore | games/neon-blaster/script.js:164-272 | A frame only ever adds 10 points per kill, and the platforms never change. |
| NeonBlaster.LastHit | games/neon-blaster/script.js:178 | A running game at hp ≤ 0 stops in that frame. |
| NeonBlaster.OneEnemyScoresTwice | games/neon-blaster/script.js:244-260 | After `splice(i, 1)` the closure's enemy is still tested against the remaining bullets. One enemy hit by two bullets scores 20 and the enemy behind it is removed untouched. |
| NeonBlaster.Game.constructor | games/neon-blaster/script.js:10-51 | The top-level state: score 0, 60 s, 100 hp, running, the player at (100,100) and the six platforms. |
| NeonBlaster.Game.ResetGame | games/neon-blaster/script.js:53-71 | Score, clock and hp are reset, the player is back at (100,100) at rest, the lists are empty, the game runs and the game-over screen is hidden. Keys, mouse, frame count and cooldown are untouched. |
| NeonBlaster.Game.KeyDown | games/neon-blaster/script.js:111-118 | Only the key flags change, as `Press` with down = true. |
| NeonBlaster.Game.KeyUp | games/neon-blaster/script.js:120-127 | Only the key flags change, as `Press` with down = false. |
| NeonBlaster.Game.MouseMove | games/neon-blaster/script.js:129-133 | Only the mouse position changes. |
| NeonBlaster.Game.MouseButton | games/neon-blaster/script.js:135-142 | Only the mouse button flag changes. |
| NeonBlaster.Game.Shoot | games/neon-blaster/script.js:148-162 | The state becomes `Shot` of the old state. |
| NeonBlaster.Game.EndRound | games/neon-blaster/script.js:355-359 | The game stops and the game-over screen shows. |
| NeonBlaster.Game.CreateParticles | games/neon-blaster/script.js:96-108 | The push loop leaves exactly `Burst` of the old particles. |
| NeonBlaster.Game.Update | games/neon-blaster/script.js:164-272 | One call of `update` leaves exactly the `Frame` of the old state: the whole step sequence with the forEach+splice passes. |
| NeonBlaster.Game.StepFire | games/neon-blaster/script.js:167-169 | The shooting step as `Fire`. |
| NeonBlaster.Game.StepSpawn | games/neon-blaster/script.js:180-182 | The spawn step as `Spawn`. |
| NeonBlaster.Game.StepClock | games/neon-blaster/script.js:171-178 | The timer step as `Clock`. |
| NeonBlaster.Game.StepPlayer | games/neon-blaster/script.js:184-201 | The physics step as `Move`. |
| NeonBlaster.Game.StepPlatforms | games/neon-blaster/script.js:203-219 | The platform loop as `Ground`. |
| NeonBlaster.Game.MoveBullet | games/neon-blaster/script.js:223-229 | One bullet moved and aged, with life 0 inside any platform. |
| NeonBlaster.Game.StepBullets | games/neon-blaster/script.js:221-231 | The index loop with splicing leaves exactly the bullets of `FlyBullets`. |
| NeonBlaster.Game.VisitBullet | games/neon-blaster/script.js:222-230 | One callback on index i: the bullet there is moved and aged, and spliced out when its life is used up. An index past the end changes nothing. |
| NeonBlaster.Game.StepParticles | games/neon-blaster/script.js:263-269 | The index loop with splicing leaves exactly the particles of `Fade`. |
| NeonBlaster.Game.StepEnemies | games/neon-blaster/script.js:233-261 | The enemy loop with its nested bullet loop leaves exactly `Fight` of the old state. |
| NeonBlaster.Game.VisitEnemy | games/neon-blaster/script.js:234-261 | One enemy's turn: it moves and re-aims, may hit the player, and is tested against every bullet. |
| NeonBlaster.Game.HitPlayer | games/neon-blaster/script.js:243-249 | An enemy touching the player costs 10 hp, adds 10 red particles and splices slot i. |
| NeonBlaster.Game.ShootDown | games/neon-blaster/script.js:251-260 | The bullet loop for one enemy: each bullet inside it scores 10, adds 15 yellow particles, and splices slot i of the enemies and its own slot. |
| NeonBlaster.Game.Strike | games/neon-blaster/script.js:253-259 | One bullet inside the enemy value scores 10, adds 15 yellow particles, and splices slot i of the enemies and its own slot. Any other bullet changes nothing. |
| CyberPong.Opening | games/cyber-pong/script.js:7-34 | The starting table has the ball and paddle shapes and positions the frame rules rely on. |
| CyberPong.CollisionIsOverlap | games/cyber-pong/script.js:74-86 | `collision` holds when the ball's square and the paddle's box share a point, and for non-empty shapes only then. |
| CyberPong.ClampKeepsOnCanvas | games/cyber-pong/script.js:98-102 | Clamping moves only y. It puts a paddle that fits on the canvas fully on it and leaves a paddle already inside alone. |
| CyberPong.BounceRule | games/cyber-pong/script.js:104-107 | Crossing the top or bottom edge flips velocityY. A ball inside is unchanged, and nothing else changes. |
| CyberPong.ReboundDirection | games/cyber-pong/script.js:109-128 | On a paddle hit, the relative hit point lies in (-1.2, 1.2) and the speed rises by 0.2. The ball leaves rightwards from the left paddle and leftwards from the right one. |
| CyberPong.ResetBallRule | games/cyber-pong/script.js:64-72 | A serve recentres the ball at speed 7 with velocityX flipped, and velocityY is 5 iff the draw is above 0.5, else -5. |
| CyberPong.StepRules | games/cyber-pong/script.js:88-140 | A frame keeps the table's shape and scores at most one point: player 2 when the ball leaves on the left, the user when it leaves on the right. Speed is reset to 7 on a point, up 0.2 on a hit, else unchanged; the ball recentres after a point; paddles end on the canvas. |
| CyberPong.StepShaped | games/cyber-pong/script.js:88-140 | A frame keeps the ball radius, the paddle sizes and x positions, and a speed of at least 7. |
| CyberPong.Restart | games/cyber-pong/script.js:188-194 | Restart zeroes both scores and serves from the centre at speed 7, leaving the paddles where they are. |
| CyberPong.PressKey | games/cyber-pong/script.js:173-181 | A/a set or clear `a` and D/d set or clear `d`. Every other key leaves both alone. |
| CyberPong.Game.constructor | games/cyber-pong/script.js:7-34 | The objects as the script declares them, with no keys held. |
| CyberPong.Game.ResetBallNow | games/cyber-pong/script.js:64-72 | The ball becomes `ResetBall` of the old ball. |
| CyberPong.Game.Update | games/cyber-pong/script.js:88-140 | One call of `update` leaves exactly `Step` of the old table and keeps the table's shape. |
| CyberPong.Game.MovePlayer2 | games/cyber-pong/script.js:93-96 | The key-driven paddle moves 8 up for `a` and 8 down for `d`. |
| CyberPong.Game.ClampPaddles | games/cyber-pong/script.js:98-102 | Both paddles are clamped as `ClampPaddle`. |
| CyberPong.Game.WallBounce | games/cyber-pong/script.js:104-107 | The ball becomes `Bounce` of the old ball. |
| CyberPong.Game.PaddleHit | games/cyber-pong/script.js:109-128 | The ball becomes `Rebound` off the paddle on its half. |
| CyberPong.Game.Scoring | games/cyber-pong/script.js:130-139 | The table becomes `Score` of the old table. |
| CyberPong.Game.MouseMove | games/cyber-pong/script.js:162-165 | The user's paddle is centred on the pointer, unclamped. |
| CyberPong.Game.KeyDown | games/cyber-pong/script.js:173-176 | The key flags become `PressKey` with down = true. |
| CyberPong.Game.KeyUp | games/cyber-pong/script.js:178-181 | The key flags become `PressKey` with down = false. |
| CyberPong.Game.RestartClick | games/cyber-pong/script.js:188-194 | The table becomes `Restart` of the old table. |
| CosmicDodge.DriftStays | games/cosmic-dodge/script.js:39-46 | A star on the canvas stays on it. Only its height changes, and it wraps to 0 exactly when it would pass the bottom. |
| CosmicDodge.ShipStaysOnCanvas | games/cosmic-dodge/script.js:119-125 | Only x changes. A ship that fits ends within half its width of both edges, and a free move is kept exactly. |
| CosmicDodge.IntervalRules | games/cosmic-dodge/script.js:85 | The spawn interval is at least 200 ms, never grows with the score, and is 200 from score 80 on. |
| CosmicDodge.NewMeteorRules | games/cosmic-dodge/script.js:86-91 | A new meteor starts at y = -20 with speed 3 + score/10. It sits 10 px or more from both side edges and has radius in [10, 25). |
| CosmicDodge.SpawnRules | games/cosmic-dodge/script.js:85-93 | Once the interval has passed, one meteor is appended behind the others and the spawn time is recorded. Before that nothing changes. |
| CosmicDodge.HitIsOverlap | games/cosmic-dodge/script.js:101-106 | The ship test holds when the meteor's square and the ship's box share a point, and for non-empty shapes only then. |
| CosmicDodge.MeteorPassRules | games/cosmic-dodge/script.js:84-117 | Every meteor dropped scores exactly one point, and kept plus dropped equals the count after spawning. The game keeps running iff no visited meteor touched the ship, and the game-over screen shows iff it was showing or one did. Every meteor left was visited and is not past the bottom, or was passed over. |
| CosmicDodge.FirstFrame | games/cosmic-dodge/script.js:141-151 | The first frame after a start scores nothing and holds at most one meteor. Within a second of the start it leaves the sky empty and the game running. |
| CosmicDodge.Game.constructor | games/cosmic-dodge/script.js:9-37 | The top-level state has score 0, not running, no meteors, the ship centred 80 above the bottom, and 100 stars on the canvas. Star i is draw i scaled to the canvas by `NewStar`, then drifted once by the initial `drawStars` (line 178). |
| CosmicDodge.Game.MoveStars | games/cosmic-dodge/script.js:39-46 | Every star drifts as `Drift`, and stars on the canvas stay on it. |
| CosmicDodge.Game.UpdateShip | games/cosmic-dodge/script.js:119-125 | The ship becomes `MoveShip` of the old ship. |
| CosmicDodge.Game.EndGame | games/cosmic-dodge/script.js:153-158 | The game stops and the game-over screen shows. |
| CosmicDodge.Game.SpawnMeteor | games/cosmic-dodge/script.js:85-93 | The sky becomes `Spawned` of the old sky. |
| CosmicDodge.Game.UpdateMeteors | games/cosmic-dodge/script.js:84-117 | The spawn plus the index loop with splicing leaves exactly `MeteorPass` of the old sky. |
| CosmicDodge.Game.VisitMeteor | games/cosmic-dodge/script.js:95-116 | One callback: the meteor falls. Touching the ship ends the game, and past the bottom it scores 1 and is spliced out. |
| CosmicDodge.Game.Loop | games/cosmic-dodge/script.js:127-139 | A stopped game is left alone. A running one has its stars drifted, its ship moved, and its meteors passed against the new ship. The star invariant is kept. |
| CosmicDodge.Game.StartGame | games/cosmic-dodge/script.js:141-151 | A clean sky (score 0, running, clock at `start`), then one frame at `now`: every star drifts once, the ship moves and the meteor pass runs. |
| CosmicDodge.Game.KeyDown | games/cosmic-dodge/script.js:161-167 | Left and right (arrow or a/d) set dx to -speed or +speed. Space restarts only from the game-over screen of a stopped game, with the stars drifting once in the first frame; otherwise nothing else changes. |
| CosmicDodge.Game.KeyUp | games/cosmic-dodge/script.js:169-173 | Releasing any of the four movement keys stops the ship, and other keys change nothing. |
| Bayam.HeightCm | games/bayam/script.js:61 | The reported height is floor(growth × 0.5). |
| Bayam.EndMessage | games/bayam/script.js:62-69 | "Amazing Harvest!" iff growth > 200, "Needs more water..." iff growth < 50, "Time's Up!" iff 50 ≤ growth ≤ 200. |
| Bayam.SoundRounds | games/bayam/script.js:21-72 | `init` starts a sound round and ticks and taps keep it sound. The clock stays in [0, 30] and the timer runs exactly while the game does. Growth is even and never negative, and a finished game shows its height and message. |
| Bayam.OverIsFrozen | games/bayam/script.js:41-42 | Once the game is over, ticks and taps change nothing. |
| Bayam.Countdown | games/bayam/script.js:41-49 | Each tick of a running round takes one second off. The tick that reaches 0 ends the round with the result for the growth so far. |
| Bayam.ThirtySeconds | games/bayam/script.js:21-49 | A round from `init` is still on after 29 ticks and over after 30. |
| Bayam.StemWidth | games/bayam/script.js:88-89 | The stem width is at most 30, at least 10 for a non-negative growth, and below 30 iff growth < 400. |
| Bayam.LeafRules | games/bayam/script.js:84-122 | The plant has min(floor(growth/15), 53) leaves, leaf i at height (i+1)·15 on the stem. Sides alternate, starting on the right. |
| Bayam.SeedOnly | games/bayam/script.js:75-82 | Only the seed is drawn iff growth ≤ 0. |
| Bayam.LeafStop | games/bayam/script.js:107-122 | The leaf loop with its `break` stops after exactly the reference number of leaves. |
| Bayam.Game.constructor | games/bayam/script.js:10-15 | The globals, then `init` (line 188). |
| Bayam.Game.Start | games/bayam/script.js:21-39 | Time 30, growth 0, running, clickPower 1, no leaves, the timer set and the game-over screen hidden. |
| Bayam.Game.EndGame | games/bayam/script.js:57-72 | Stops the game and the timer, and shows the game-over screen with `HeightCm` and `EndMessage`. |
| Bayam.Game.Tick | games/bayam/script.js:41-49 | The state becomes `Ticked` of the old state, and soundness is kept. |
| Bayam.Game.Grow | games/bayam/script.js:161-167 | Exactly +2 growth while running, nothing otherwise, and soundness is kept. |
| Bayam.Game.KeyDown | games/bayam/script.js:178-180 | The Space and Enter codes grow the plant. Other keys leave growth alone. |
| Bayam.Game.DrawPlant | games/bayam/script.js:74-122 | The seed or the stem (height, width and leaves) equals the `Sketch` reference. |
| WhackADroid.RandomTime | games/whack-a-droid/script.js:13-15 | For a draw in [0, 1), the rounded time lies in [min, max]. |
| WhackADroid.HoleOf | games/whack-a-droid/script.js:18 | For a draw in [0, 1), the index is a valid hole. |
| WhackADroid.HoleChoice | games/whack-a-droid/script.js:17-25 | With one hole every draw repeats the last hole, so `randomHole` cannot return. With two or more holes some draw gives another hole. |
| WhackADroid.TickCounts | games/whack-a-droid/script.js:49-59 | A tick takes one second off and keeps the countdown sound. The round ends exactly on the tick from 1, stopping the interval and re-enabling the button as "Play Again". |
| WhackADroid.Countdown | games/whack-a-droid/script.js:49-59 | n ticks take n seconds off. The tick that reaches 0 stops the interval and sets `timeUp`. |
| WhackADroid.ThirtySeconds | games/whack-a-droid/script.js:38-59 | A round from `startGame` is not up after 29 ticks and is up after 30. |
| WhackADroid.Game.constructor | games/whack-a-droid/script.js:7-11 | The top-level state: nothing up, no last hole, score 0, 30 s, no interval, the button enabled. |
| WhackADroid.Game.RandomHole | games/whack-a-droid/script.js:17-25 | The returned hole is valid and differs from the previous `lastHole`, and it becomes the new `lastHole`. It is the first draw that differs; every earlier draw repeated the last hole. |
| WhackADroid.Game.Peep | games/whack-a-droid/script.js:27-31 | The up-time is `randomTime(500, 1000)` from its draw, in [500, 1000]. The hole comes from the next draws via `randomHole`, and that hole goes up. |
| WhackADroid.Game.PeepDone | games/whack-a-droid/script.js:32-35 | The droid goes down. Another peep is scheduled iff the round is not up, and its time and hole follow the peep rules. |
| WhackADroid.Game.StartGame | games/whack-a-droid/script.js:38-60 | Score 0, 30 s, `timeUp` false, the button disabled and the interval set. The first peep follows the peep rules. |
| WhackADroid.Game.TimerTick | games/whack-a-droid/script.js:49-59 | The clock becomes `Tick` of the old clock, and the countdown invariant is kept. |
| WhackADroid.Game.Bonk | games/whack-a-droid/script.js:62-66 | A trusted click scores exactly one point and sends the hole's droid down. An untrusted one changes nothing. |

## Left out

- Drawing is left out because it is presentation only. That covers `draw`, `render`, `drawPlant`'s strokes, `drawLeaf`, `drawNet`, `drawArc`, `drawRect`, `drawShip`, `drawMeteors`, the drawing half of `drawStars`, and the HUD and DOM text (`updateHud`, `innerText`, `textContent`, colours, opacity, the shake `transform`, the hit colour in `bonk`).
- Scheduling is left out: `requestAnimationFrame`, `setInterval`, `setTimeout`, `clearInterval` and `cancelAnimationFrame`. The host is assumed to call the modelled callback at the time the script scheduled it. Only whether a timer is set is tracked, as `timerOn`.
- Floating point is left out: all arithmetic is on exact reals and integers. For example, Neon Blaster's 1/60 steps do not accumulate rounding error.
- Math.random, Date.now, canvas size and trigonometry are inputs (draw records or streams, `now`, constants, and `heading`/`deflect` functions). Their meaning is only stated as ranges, such as draws in [0, 1).
- Cosmic Dodge reads Date.now() twice in `updateMeteors`, at lines 85 and 92. The model uses one value `now` for both.
- The starting state of the HTML elements is assumed: game-over screens are hidden and buttons are enabled. The initial text of Bayam's end message is taken as empty.
- Neon Blaster's `s` key is stored like the others but nothing reads it. The player's colour and the enemies' `type` and `hp` properties are never read and are not modelled.
- Cyber Pong's `collision` writes `top`/`bottom`/`left`/`right` properties onto the ball and paddle objects. Nothing else reads them, so the model computes the boxes without storing them. The net is drawing only.
- Bayam's `Math.sin` sway terms are not modelled: the stem curve end `endX`, control point `cp1x`, leaf x position, size and rotation. The empty `generateLeaves` and the empty flower branch do nothing. `leaves` is kept as the field `init` empties. `touchstart`'s `preventDefault` is host behaviour.
- NeonBlaster.Lower: JavaScript's `toLowerCase` also maps letters outside A-Z (such as 'Ä' to 'ä'), and 'İ' becomes two code units. The model maps A-Z only, because the key switch tests only 'w', 'a', 's' and 'd', and no other character lowers to one of those.
- Whack-a-Droid's `e.isTrusted` is a boolean parameter of `Bonk`. The peep timeout's delay is returned, not waited for.
- WhackADroid.Game.RandomHole: the script's recursion has no bound. The model asks for a ghost index of a future draw that gives another hole, which is what makes it return. `HoleChoice` shows such a draw exists exactly when there are at least two holes.

## Behaviour of the scripts worth knowing

- **Removal while iterating.** The scripts splice inside `forEach`, so the element behind a removed one is skipped for that frame (`ForEachSplice.SpliceSkipsSuccessor`). In Neon Blaster's enemy pass, a spliced enemy is still tested against the remaining bullets and can score twice (`NeonBlaster.OneEnemyScoresTwice`).
- **Game over mid-frame.** Neon Blaster's `gameOver` and Cosmic Dodge's `endGame` only clear the running flag, and the rest of that frame still runs (`NeonBlaster.Frame`, `CosmicDodge.MeteorPass`).
- **Health has no floor.** Neon Blaster's hp drops by 10 per enemy touch and can go below 0.
- **One hole.** With a single hole, Whack-a-Droid's first peep returns at once, because `lastHole` is still undefined. The second peep makes `randomHole` call itself forever, since every draw repeats the last hole. The browser then throws a stack-overflow `RangeError` inside the peep timeout. `WhackADroid.HoleChoice` shows that with one hole no draw differs from the last hole.
