/**
 * Neon Blaster (games/neon-blaster/script.js): a platform shooter. One call of `update` is one
 * animation frame. The world is a record of scalars (score, hp, timer, frame counter, fire
 * cooldown), the player record, and the bullet, enemy and particle arrays, which `update` edits in
 * place inside `forEach` passes.
 *
 * Inputs the page takes from the host are parameters here:
 *  - `heading(dy, dx)` stands for (cos a, sin a) with a = Math.atan2(dy, dx);
 *  - `Draws` are three results of Math.random(), in the order the script draws them;
 *  - `spark(k)` are the draws of the particle created in slot k of the particle array this frame;
 *  - canvas.width and canvas.height are the class's `width` and `height`.
 */
module NeonBlaster {
  import Geometry
  import FE = ForEachSplice

  const Gravity: real := 0.5
  const Friction: real := 0.8
  const PlayerSpeed: real := 5.0
  const JumpForce: real := -15.0
  const FireRate: nat := 10
  const RoundTime: real := 60.0
  const FullHp: int := 100
  const SpawnPeriod: nat := 60
  const BulletSpeed: real := 10.0
  const BulletLife: int := 50
  const HomingSpeed: real := 2.0
  const ParticleLife: int := 30
  const Damage: int := 10
  const Bounty: int := 10
  const HitSparks: nat := 10
  const KillSparks: nat := 15

  datatype Rect = Rect(x: real, y: real, w: real, h: real)
  datatype Player = Player(x: real, y: real, w: real, h: real, dx: real, dy: real,
                           jumping: bool, facingLeft: bool)
  datatype Bullet = Bullet(x: real, y: real, dx: real, dy: real, life: int)
  datatype Enemy = Enemy(x: real, y: real, w: real, h: real, dx: real, dy: real)
  /** '#ff0055' (player hit) and '#ffe600' (enemy shot). */
  datatype Color = Red | Yellow
  datatype Particle = Particle(x: real, y: real, radius: real, dx: real, dy: real, color: Color, life: int)
  datatype Keys = Keys(w: bool, a: bool, s: bool, d: bool)
  datatype Mouse = Mouse(x: real, y: real, down: bool)
  /** Three Math.random() results. */
  datatype Draws = Draws(r1: real, r2: real, r3: real)

  /** heading(dy, dx) = (cos(atan2(dy, dx)), sin(atan2(dy, dx))). */
  type Heading = (real, real) -> (real, real)

  predicate UnitDraws(d: Draws)
  {
    0.0 <= d.r1 < 1.0 && 0.0 <= d.r2 < 1.0 && 0.0 <= d.r3 < 1.0
  }

  /** Every module-level variable of the game that `update` and the handlers touch. */
  datatype World = World(score: int, timeLeft: real, hp: int, running: bool, frames: nat,
                         fireDelay: nat, keys: Keys, mouse: Mouse, player: Player,
                         platforms: seq<Rect>, bullets: seq<Bullet>, enemies: seq<Enemy>,
                         particles: seq<Particle>, overShown: bool)

  // ---------------------------------------------------------------- start and restart

  function Level(): seq<Rect>
  {
    [Rect(0.0, 550.0, 800.0, 50.0), Rect(200.0, 400.0, 100.0, 20.0), Rect(500.0, 350.0, 100.0, 20.0),
     Rect(300.0, 200.0, 200.0, 20.0), Rect(50.0, 250.0, 100.0, 20.0), Rect(650.0, 150.0, 100.0, 20.0)]
  }

  /** The state when the script has loaded, before the first frame. */
  function Fresh(): World
  {
    World(0, RoundTime, FullHp, true, 0, 0, Keys(false, false, false, false), Mouse(0.0, 0.0, false),
          Player(100.0, 100.0, 30.0, 30.0, 0.0, 0.0, false, false), Level(), [], [], [], false)
  }

  // ---------------------------------------------------------------- input handlers

  function LowerChar(c: char): char
  {
    if 'A' <= c <= 'Z' then (c as int + 32) as char else c
  }

  /** String.prototype.toLowerCase on the ASCII letters. */
  function Lower(key: string): (r: string)
    ensures |r| == |key|
    ensures forall i :: 0 <= i < |key| ==> r[i] == LowerChar(key[i])
  {
    if key == [] then [] else [LowerChar(key[0])] + Lower(key[1..])
  }

  /** The keydown/keyup switch: sets the flag of the w, a, s or d key to `down`. */
  function Press(k: Keys, key: string, down: bool): Keys
  {
    var c := Lower(key);
    if c == "w" then k.(w := down)
    else if c == "a" then k.(a := down)
    else if c == "s" then k.(s := down)
    else if c == "d" then k.(d := down)
    else k
  }

  lemma PressRules(k: Keys, key: string, down: bool)
    ensures key == "A" || key == "a" ==> Press(k, key, down) == k.(a := down)
    ensures key == "D" || key == "d" ==> Press(k, key, down) == k.(d := down)
    ensures key == "W" || key == "w" ==> Press(k, key, down) == k.(w := down)
    ensures |key| != 1 ==> Press(k, key, down) == k
  {
    var c := Lower(key);
    if |key| == 1 {
      assert c == [LowerChar(key[0])];
    } else {
      assert |c| != 1;
    }
  }

  // ---------------------------------------------------------------- shooting (lines 145-169)

  /** `shoot`: nothing while cooling down, else one bullet from the player's centre towards the
      mouse, and the cooldown restarts. */
  function Shot(w: World, heading: Heading): (r: World)
    ensures r == w.(bullets := r.bullets, fireDelay := r.fireDelay)
  {
    if w.fireDelay > 0 then w
    else
      var pl := w.player;
      var cx := pl.x + pl.w / 2.0;
      var cy := pl.y + pl.h / 2.0;
      var v := heading(w.mouse.y - cy, w.mouse.x - cx);
      w.(bullets := w.bullets + [Bullet(cx, cy, v.0 * BulletSpeed, v.1 * BulletSpeed, BulletLife)],
         fireDelay := FireRate)
  }

  /** Lines 168-169: count the cooldown down, then shoot if the button is held. */
  function Fire(w: World, heading: Heading): (r: World)
    ensures r == w.(bullets := r.bullets, fireDelay := r.fireDelay)
  {
    var cooled := if w.fireDelay > 0 then w.(fireDelay := w.fireDelay - 1) else w;
    if w.mouse.down then Shot(cooled, heading) else cooled
  }

  /** A bullet is fired exactly when the button is held and the cooldown has run out, and then the
      cooldown becomes 10; otherwise the cooldown just counts down. */
  lemma FireCooldown(w: World, heading: Heading)
    ensures var r := Fire(w, heading);
      var fires := w.mouse.down && w.fireDelay <= 1;
      (fires ==> |r.bullets| == |w.bullets| + 1 && r.bullets[..|w.bullets|] == w.bullets
                 && r.bullets[|w.bullets|].life == BulletLife && r.fireDelay == FireRate)
      && (!fires ==> r.bullets == w.bullets && r.fireDelay == if w.fireDelay > 0 then w.fireDelay - 1 else 0)
  {
  }

  /** `ticks` consecutive frames of the shooting step with the button held. */
  function HeldFire(w: World, heading: Heading, ticks: nat): World
    decreases ticks
  {
    if ticks == 0 then w else HeldFire(Fire(w, heading), heading, ticks - 1)
  }

  /** Frames that pass before the first shot when the cooldown stands at d. */
  function Wait(d: nat): nat
  {
    if d <= 1 then 0 else d - 1
  }

  /** Number of shots in `ticks` held frames starting with cooldown d. */
  function Shots(d: nat, ticks: nat): nat
  {
    if ticks <= Wait(d) then 0 else (ticks - Wait(d) - 1) / FireRate + 1
  }

  lemma {:induction false} HeldFireShots(w: World, heading: Heading, ticks: nat)
    requires w.mouse.down
    ensures |HeldFire(w, heading, ticks).bullets| == |w.bullets| + Shots(w.fireDelay, ticks)
    decreases ticks
  {
    if ticks > 0 {
      var w' := Fire(w, heading);
      FireCooldown(w, heading);
      HeldFireShots(w', heading, ticks - 1);
      if w.fireDelay <= 1 {
        assert w'.fireDelay == 10;
        assert Shots(w.fireDelay, ticks) == 1 + Shots(10, ticks - 1);
      } else {
        assert w'.fireDelay == w.fireDelay - 1;
        assert Shots(w.fireDelay, ticks) == Shots(w.fireDelay - 1, ticks - 1);
      }
    }
  }

  /** With the button held from a rested cooldown, frames 0..T fire exactly T/10 + 1 bullets. */
  lemma HeldFireFromRest(w: World, heading: Heading, t: nat)
    requires w.mouse.down && w.fireDelay == 0
    ensures |HeldFire(w, heading, t + 1).bullets| == |w.bullets| + t / FireRate + 1
  {
    HeldFireShots(w, heading, t + 1);
  }

  // ---------------------------------------------------------------- timer (lines 172-178, 355-359)

  function GameOver(w: World): World
  {
    w.(running := false, overShown := true)
  }

  /** One sixtieth of a second off the clock; the game is over when the clock reaches 0 (which is
      then shown as 0) or when hp is already down to 0. */
  function Clock(w: World): (r: World)
    ensures r == w.(timeLeft := r.timeLeft, running := r.running, overShown := r.overShown)
  {
    var t := w.timeLeft - 1.0 / 60.0;
    var w1 := if t <= 0.0 then GameOver(w.(timeLeft := 0.0)) else w.(timeLeft := t);
    if w1.hp <= 0 then GameOver(w1) else w1
  }

  // ---------------------------------------------------------------- spawning (lines 80-94, 181-182)

  /** `spawnEnemy`: from the left or right edge, at a random height, flying inwards. */
  function NewEnemy(width: real, height: real, d: Draws): Enemy
  {
    var x := if d.r1 > 0.5 then 0.0 else width;
    Enemy(x, d.r2 * (height - 100.0), 25.0, 25.0, (d.r3 * 2.0 + 1.0) * (if x == 0.0 then 1.0 else -1.0), 0.0)
  }

  /** A new enemy enters at the left or the right edge, at a height in the top part of the canvas
      (100 pixels above the bottom), and flies inwards at a speed from 1 up to 3. */
  lemma NewEnemyRules(width: real, height: real, d: Draws)
    requires UnitDraws(d) && width > 0.0 && height >= 100.0
    ensures var e := NewEnemy(width, height, d);
      (e.x == 0.0 <==> d.r1 > 0.5) && (e.x == width <==> d.r1 <= 0.5)
      && 0.0 <= e.y && (height > 100.0 ==> e.y < height - 100.0)
      && e.w == 25.0 && e.h == 25.0 && e.dy == 0.0
      && (e.x == 0.0 ==> 1.0 <= e.dx < 3.0) && (e.x == width ==> -3.0 < e.dx <= -1.0)
  {
    var e := NewEnemy(width, height, d);
    var room := height - 100.0;
    var speed := d.r3 * 2.0 + 1.0;
    assert e.y == d.r2 * room;
    assert d.r2 * room >= 0.0;
    if room > 0.0 {
      assert room - d.r2 * room == (1.0 - d.r2) * room;
      assert (1.0 - d.r2) * room > 0.0;
    }
    if d.r1 > 0.5 {
      assert e.x == 0.0 && e.dx == speed;
    } else {
      assert e.x == width && e.dx == -speed;
    }
  }

  function Spawn(w: World, width: real, height: real, d: Draws): (r: World)
    ensures r == w.(frames := r.frames, enemies := r.enemies)
  {
    var f := w.frames + 1;
    w.(frames := f, enemies := if f % SpawnPeriod == 0 then w.enemies + [NewEnemy(width, height, d)] else w.enemies)
  }

  /** `ticks` consecutive frames of the spawning step, with the draws of frame k given by draw(k). */
  function SpawnRun(w: World, width: real, height: real, draw: nat -> Draws, ticks: nat): World
    decreases ticks
  {
    if ticks == 0 then w else SpawnRun(Spawn(w, width, height, draw(ticks)), width, height, draw, ticks - 1)
  }

  /** Advancing the counter by one passes a multiple of 60 exactly when the new count is one. */
  lemma NextFrame(f: nat)
    ensures (f + 1) / SpawnPeriod - f / SpawnPeriod == if (f + 1) % SpawnPeriod == 0 then 1 else 0
  {
  }

  /** After T frames the counter has advanced by T and one enemy has been added for every multiple
      of 60 the counter passed: enemies appear exactly on frames whose new count is a multiple of 60. */
  lemma {:induction false} SpawnSchedule(w: World, width: real, height: real, draw: nat -> Draws, ticks: nat)
    ensures var r := SpawnRun(w, width, height, draw, ticks);
      r.frames == w.frames + ticks
      && |r.enemies| == |w.enemies| + (w.frames + ticks) / SpawnPeriod - w.frames / SpawnPeriod
      && r.enemies[..|w.enemies|] == w.enemies
    decreases ticks
  {
    if ticks > 0 {
      var w' := Spawn(w, width, height, draw(ticks));
      SpawnSchedule(w', width, height, draw, ticks - 1);
      NextFrame(w.frames);
      var r := SpawnRun(w', width, height, draw, ticks - 1);
      assert r.enemies[..|w.enemies|] == r.enemies[..|w'.enemies|][..|w.enemies|];
    }
  }

  // ---------------------------------------------------------------- player physics (lines 185-201)

  /** Lines 185-187: key a runs left, else key d runs right, else friction slows the player. */
  function Steer(p: Player, k: Keys): Player
  {
    if k.a then p.(dx := -PlayerSpeed, facingLeft := true)
    else if k.d then p.(dx := PlayerSpeed, facingLeft := false)
    else p.(dx := p.dx * Friction)
  }

  /** Lines 189-192: a jump starts only from the ground. */
  function Jump(p: Player, k: Keys): Player
  {
    if k.w && !p.jumping then p.(dy := JumpForce, jumping := true) else p
  }

  /** Lines 194-196: gravity, then the move. */
  function Fall(p: Player): Player
  {
    var q := p.(dy := p.dy + Gravity);
    q.(x := q.x + q.dx, y := q.y + q.dy)
  }

  /** Lines 199-200: the left edge first, then the right edge. */
  function Clamp(p: Player, width: real): Player
  {
    var q := if p.x < 0.0 then p.(x := 0.0) else p;
    if q.x + q.w > width then q.(x := width - q.w) else q
  }

  /** Run/brake, jump, gravity, move, clamp to the canvas, and death by falling off the bottom. */
  function Move(w: World, width: real, height: real): (r: World)
    ensures r == w.(player := r.player, hp := r.hp)
  {
    var p := Clamp(Fall(Jump(Steer(w.player, w.keys), w.keys)), width);
    w.(player := p, hp := if p.y > height then 0 else w.hp)
  }

  /** Key a wins over key d, and without either the speed decays by 0.8; a jump starts only from
      the ground; the player ends up inside [0, width - w] when it fits on the canvas. */
  lemma MoveRules(w: World, width: real, height: real)
    ensures var p := w.player; var q := Move(w, width, height).player;
      q.dx == (if w.keys.a then -5.0 else if w.keys.d then 5.0 else p.dx * 0.8)
      && q.dy == (if w.keys.w && !p.jumping then -15.0 else p.dy) + 0.5
      && q.jumping == (p.jumping || w.keys.w)
      && (p.w <= width ==> 0.0 <= q.x <= width - p.w)
      && (0.0 <= p.x + q.dx <= width - p.w ==> q.x == p.x + q.dx)
      && q.y == p.y + q.dy
      && q.w == p.w && q.h == p.h
  {
  }

  // ---------------------------------------------------------------- platforms (lines 204-219)

  function PlayerBox(p: Player): Geometry.Box
  {
    Geometry.Box(p.x, p.y, p.x + p.w, p.y + p.h)
  }

  function RectBox(r: Rect): Geometry.Box
  {
    Geometry.Box(r.x, r.y, r.x + r.w, r.y + r.h)
  }

  /** The player's feet are inside platform p, and they were above it before this frame's fall. */
  predicate Lands(pl: Player, p: Rect)
  {
    pl.x < p.x + p.w && pl.x + pl.w > p.x && pl.y + pl.h < p.y + p.h && pl.y + pl.h > p.y
    && pl.dy > 0.0 && pl.y + pl.h - pl.dy <= p.y
  }

  function LandOn(pl: Player, p: Rect): Player
  {
    if Lands(pl, p) then pl.(jumping := false, dy := 0.0, y := p.y - pl.h) else pl
  }

  /** The `platforms.forEach` pass from index k on. */
  function LandFrom(pl: Player, ps: seq<Rect>, k: nat): Player
    decreases |ps| - k
  {
    if k < |ps| then LandFrom(LandOn(pl, ps[k]), ps, k + 1) else pl
  }

  /** Assume airborne, then let every platform catch the player. */
  function Ground(w: World): (r: World)
    ensures r == w.(player := r.player)
  {
    w.(player := LandFrom(w.player.(jumping := true), w.platforms, 0))
  }

  lemma {:induction false} NoLandingFrom(pl: Player, ps: seq<Rect>, k: nat)
    requires forall j :: k <= j < |ps| ==> !Lands(pl, ps[j])
    ensures LandFrom(pl, ps, k) == pl
    decreases |ps| - k
  {
    if k < |ps| {
      NoLandingFrom(pl, ps, k + 1);
    }
  }

  /** The pass lands the player on the first platform it lands on; a landing zeroes dy, so no
      later platform catches it again. */
  lemma {:induction false} FirstLanding(pl: Player, ps: seq<Rect>, k: nat, j: nat)
    requires k <= j < |ps| && Lands(pl, ps[j]) && forall i :: k <= i < j ==> !Lands(pl, ps[i])
    ensures LandFrom(pl, ps, k) == pl.(jumping := false, dy := 0.0, y := ps[j].y - pl.h)
    decreases j - k
  {
    if k < j {
      assert LandOn(pl, ps[k]) == pl;
      FirstLanding(pl, ps, k + 1, j);
    } else {
      var landed := pl.(jumping := false, dy := 0.0, y := ps[j].y - pl.h);
      assert LandOn(pl, ps[k]) == landed;
      NoLandingFrom(landed, ps, k + 1);
    }
  }

  /** Grounding is re-derived every frame: the player is airborne afterwards exactly when no
      platform caught it from above, and a platform that caught it sets dy = 0 and y = top - h. */
  lemma Grounding(w: World)
    ensures var pl := w.player; var q := Ground(w).player;
      (q.jumping <==> forall j :: 0 <= j < |w.platforms| ==> !Lands(pl, w.platforms[j]))
      && (q.jumping ==> q == pl.(jumping := true))
      && (!q.jumping ==> q.dy == 0.0 && exists j :: 0 <= j < |w.platforms| && Lands(pl, w.platforms[j])
                                                    && q.y == w.platforms[j].y - pl.h)
  {
    var pl := w.player.(jumping := true);
    var ps := w.platforms;
    assert forall j :: 0 <= j < |ps| ==> (Lands(pl, ps[j]) <==> Lands(w.player, ps[j]));
    if exists j :: 0 <= j < |ps| && Lands(pl, ps[j]) {
      var j := FirstIndex(pl, ps);
      FirstLanding(pl, ps, 0, j);
    } else {
      NoLandingFrom(pl, ps, 0);
    }
  }

  /** The least platform index the player lands on. */
  lemma FirstIndex(pl: Player, ps: seq<Rect>) returns (j: nat)
    requires exists j :: 0 <= j < |ps| && Lands(pl, ps[j])
    ensures j < |ps| && Lands(pl, ps[j]) && forall i :: 0 <= i < j ==> !Lands(pl, ps[i])
  {
    j := 0;
    while !Lands(pl, ps[j])
      invariant j < |ps|
      decreases |ps| - j
      invariant forall i :: 0 <= i < j ==> !Lands(pl, ps[i])
      invariant exists k :: j <= k < |ps| && Lands(pl, ps[k])
    {
      j := j + 1;
    }
  }

  // ---------------------------------------------------------------- bullets (lines 222-231)

  /** Move, age, and stop dead inside a platform. */
  function BulletStep(b: Bullet, ps: seq<Rect>): Bullet
  {
    var m := b.(x := b.x + b.dx, y := b.y + b.dy, life := b.life - 1);
    if exists j :: 0 <= j < |ps| && Geometry.Inside(RectBox(ps[j]), m.x, m.y) then m.(life := 0) else m
  }

  function BulletMover(ps: seq<Rect>): Bullet -> Bullet
  {
    b => BulletStep(b, ps)
  }

  predicate BulletSpent(b: Bullet)
  {
    b.life <= 0
  }

  function FlyBullets(w: World): (r: World)
    ensures r == w.(bullets := r.bullets)
  {
    w.(bullets := FE.ForEach(w.bullets, BulletMover(w.platforms), BulletSpent).live)
  }

  /** The bullet pass never adds bullets, and a bullet is only dropped when it was spent on its
      own visit; the one behind a dropped bullet is carried over unmoved. */
  lemma BulletPass(w: World)
    ensures var p := FE.ForEach(w.bullets, BulletMover(w.platforms), BulletSpent);
      FlyBullets(w).bullets == p.live && |p.live| + p.removed == |w.bullets|
      && p.removed == FE.CountDead(p.visited, BulletSpent)
      && forall b :: b in p.live ==> (b in p.visited && b.life > 0) || b in w.bullets
  {
    var step, dead := BulletMover(w.platforms), BulletSpent;
    FE.ForEachIsSkipSweep(w.bullets, step, dead);
    FE.SweepCounts(w.bullets, step, dead);
    FE.SweepKeeps(w.bullets, step, dead);
  }

  // ---------------------------------------------------------------- particles (lines 96-108, 264-269)

  /** `createParticles`' record for one particle: radius in [1, 4), speed components in [-2.5, 2.5). */
  function Spark(x: real, y: real, color: Color, d: Draws): Particle
  {
    Particle(x, y, d.r1 * 3.0 + 1.0, (d.r2 - 0.5) * 5.0, (d.r3 - 0.5) * 5.0, color, ParticleLife)
  }

  /** `createParticles(x, y, color, amount)` pushed onto ps, the particle of slot k drawing spark(k). */
  function Burst(ps: seq<Particle>, x: real, y: real, color: Color, amount: nat, spark: nat -> Draws): (r: seq<Particle>)
    ensures |r| == |ps| + amount
  {
    ps + seq(amount, k requires 0 <= k => Spark(x, y, color, spark(|ps| + k)))
  }

  /** The burst keeps the old particles and appends `amount` fresh ones of the given colour at
      (x, y), each with a life of 30 frames. */
  lemma BurstContents(ps: seq<Particle>, x: real, y: real, color: Color, amount: nat, spark: nat -> Draws)
    ensures var r := Burst(ps, x, y, color, amount, spark);
      r[..|ps|] == ps
      && forall k :: |ps| <= k < |r| ==> r[k] == Spark(x, y, color, spark(k)) && r[k].life == ParticleLife
  {
  }

  /** One more particle on top of a burst. */
  lemma BurstGrows(ps: seq<Particle>, x: real, y: real, color: Color, amount: nat, spark: nat -> Draws)
    ensures Burst(ps, x, y, color, amount + 1, spark)
            == Burst(ps, x, y, color, amount, spark) + [Spark(x, y, color, spark(|ps| + amount))]
  {
    var r0 := Burst(ps, x, y, color, amount, spark);
    var r1 := Burst(ps, x, y, color, amount + 1, spark);
    assert forall k :: 0 <= k < |r1| ==> r1[k] == (r0 + [Spark(x, y, color, spark(|ps| + amount))])[k];
  }

  function ParticleStep(p: Particle): Particle
  {
    p.(x := p.x + p.dx, y := p.y + p.dy, life := p.life - 1)
  }

  predicate ParticleSpent(p: Particle)
  {
    p.life <= 0
  }

  function Fade(w: World): (r: World)
    ensures r == w.(particles := r.particles)
  {
    w.(particles := FE.ForEach(w.particles, ParticleStep, ParticleSpent).live)
  }

  /** A particle lasts as long as its life count: a particle all of whose neighbours survive is
      aged by exactly one frame, and when no particle expires the pass ages each of them. */
  lemma ParticlePass(w: World)
    ensures var p := FE.ForEach(w.particles, ParticleStep, ParticleSpent);
      Fade(w).particles == p.live && |p.live| + p.removed == |w.particles|
    ensures (forall k :: 0 <= k < |w.particles| ==> w.particles[k].life > 1) ==>
      |Fade(w).particles| == |w.particles|
      && forall k :: 0 <= k < |w.particles| ==> Fade(w).particles[k] == ParticleStep(w.particles[k])
  {
    FE.ForEachIsSkipSweep(w.particles, ParticleStep, ParticleSpent);
    FE.SweepCounts(w.particles, ParticleStep, ParticleSpent);
    if forall k :: 0 <= k < |w.particles| ==> w.particles[k].life > 1 {
      FE.NoDeathIsMap(w.particles, ParticleStep, ParticleSpent);
    }
  }

  // ---------------------------------------------------------------- enemies (lines 234-261)

  function EnemyBox(e: Enemy): Geometry.Box
  {
    Geometry.Box(e.x, e.y, e.x + e.w, e.y + e.h)
  }

  /** The enemy/player test of lines 244-245: the two boxes share a point (for non-empty boxes). */
  predicate Touches(e: Enemy, pl: Player)
  {
    e.x < pl.x + pl.w && e.x + e.w > pl.x && e.y < pl.y + pl.h && e.y + e.h > pl.y
  }

  /** The test means "some point is inside both boxes" for boxes of positive size. */
  lemma TouchesMeansMeet(e: Enemy, pl: Player)
    ensures Geometry.Meet(EnemyBox(e), PlayerBox(pl)) ==> Touches(e, pl)
    ensures Touches(e, pl) && e.w > 0.0 && e.h > 0.0 && pl.w > 0.0 && pl.h > 0.0 ==> Geometry.Meet(EnemyBox(e), PlayerBox(pl))
  {
    Geometry.SharedPoint(EnemyBox(e), PlayerBox(pl));
  }

  /** The bullet/enemy test of line 253: the bullet is strictly inside the enemy. */
  predicate Struck(b: Bullet, e: Enemy)
  {
    Geometry.Inside(EnemyBox(e), b.x, b.y)
  }

  /** Move by the current velocity, then aim at the player at homing speed. */
  function Chase(e: Enemy, pl: Player, heading: Heading): Enemy
  {
    var m := e.(x := e.x + e.dx, y := e.y + e.dy);
    var v := heading(pl.y - m.y, pl.x - m.x);
    m.(dx := v.0 * HomingSpeed, dy := v.1 * HomingSpeed)
  }

  /** The part of the world the enemy pass changes; the player is only read. */
  datatype Melee = Melee(hp: int, score: int, bullets: seq<Bullet>, enemies: seq<Enemy>, particles: seq<Particle>)

  /** Lines 244-249 for the enemy e visited at index i. */
  function PlayerHit(m: Melee, pl: Player, e: Enemy, i: nat, spark: nat -> Draws): Melee
  {
    if Touches(e, pl) then
      m.(hp := m.hp - Damage,
         particles := Burst(m.particles, e.x + e.w / 2.0, e.y + e.h / 2.0, Red, HitSparks, spark),
         enemies := FE.Splice(m.enemies, i))
    else m
  }

  /** Lines 253-259 for bullet index bi: `e` is the enemy value of the outer visit, still tested
      after it has been spliced out, and `splice(i, 1)` removes whatever now stands at index i. */
  function BulletHit(m: Melee, e: Enemy, i: nat, bi: nat, spark: nat -> Draws): Melee
  {
    if bi < |m.bullets| && Struck(m.bullets[bi], e) then
      m.(score := m.score + Bounty,
         particles := Burst(m.particles, e.x + e.w / 2.0, e.y + e.h / 2.0, Yellow, KillSparks, spark),
         enemies := FE.Splice(m.enemies, i),
         bullets := FE.Splice(m.bullets, bi))
    else m
  }

  /** The inner `bullets.forEach` from index bi up to its fixed bound nb. */
  function HitsFrom(m: Melee, e: Enemy, i: nat, bi: nat, nb: nat, spark: nat -> Draws): Melee
    decreases nb - bi
  {
    if bi < nb then HitsFrom(BulletHit(m, e, i, bi, spark), e, i, bi + 1, nb, spark) else m
  }

  /** One call of the `enemies.forEach` callback on index i. */
  function EnemyVisit(m: Melee, pl: Player, i: nat, heading: Heading, spark: nat -> Draws): Melee
  {
    if i < |m.enemies| then
      var e := Chase(m.enemies[i], pl, heading);
      var m1 := PlayerHit(m.(enemies := m.enemies[i := e]), pl, e, i, spark);
      HitsFrom(m1, e, i, 0, |m1.bullets|, spark)
    else m
  }

  /** The `enemies.forEach` pass from index i up to its fixed bound n. */
  function FightFrom(m: Melee, pl: Player, i: nat, n: nat, heading: Heading, spark: nat -> Draws): Melee
    decreases n - i
  {
    if i < n then FightFrom(EnemyVisit(m, pl, i, heading, spark), pl, i + 1, n, heading, spark) else m
  }

  function MeleeOf(w: World): Melee
  {
    Melee(w.hp, w.score, w.bullets, w.enemies, w.particles)
  }

  function Fight(w: World, heading: Heading, spark: nat -> Draws): (r: World)
    ensures r == w.(hp := r.hp, score := r.score, particles := r.particles, enemies := r.enemies, bullets := r.bullets)
  {
    var m := FightFrom(MeleeOf(w), w.player, 0, |w.enemies|, heading, spark);
    w.(hp := m.hp, score := m.score, bullets := m.bullets, enemies := m.enemies, particles := m.particles)
  }

  /** Bookkeeping of the inner bullet pass: every hit scores 10, adds 15 particles and consumes one
      bullet; it removes at most one enemy (none when index i is already past the end). There is
      no hit exactly when none of bullets bi up to nb lies inside the enemy. */
  lemma {:induction false} HitsAccounting(m: Melee, e: Enemy, i: nat, bi: nat, nb: nat, spark: nat -> Draws)
    returns (hits: nat)
    ensures var r := HitsFrom(m, e, i, bi, nb, spark);
      r.hp == m.hp
      && r.score == m.score + Bounty * hits
      && |r.particles| == |m.particles| + KillSparks * hits
      && |r.bullets| == |m.bullets| - hits
      && |m.enemies| - hits <= |r.enemies| <= |m.enemies|
      && (hits == 0 <==> forall j :: bi <= j < nb && j < |m.bullets| ==> !Struck(m.bullets[j], e))
      && (hits == 0 ==> r == m)
    decreases nb - bi
  {
    if bi < nb {
      var m1 := BulletHit(m, e, i, bi, spark);
      var more := HitsAccounting(m1, e, i, bi + 1, nb, spark);
      if bi < |m.bullets| && Struck(m.bullets[bi], e) {
        assert m1.score == m.score + Bounty && |m1.particles| == |m.particles| + KillSparks;
        assert |m1.bullets| == |m.bullets| - 1 && |m.enemies| - 1 <= |m1.enemies| <= |m.enemies|;
        hits := more + 1;
      } else {
        hits := more;
      }
    } else {
      hits := 0;
    }
  }

  /** Enemy i, once it has stepped towards the player, neither touches the player nor holds a
      bullet (vacuous past the end of the array). */
  predicate Quiet(m: Melee, pl: Player, i: nat, heading: Heading)
  {
    i < |m.enemies| ==>
      var e := Chase(m.enemies[i], pl, heading);
      !Touches(e, pl) && forall k :: 0 <= k < |m.bullets| ==> !Struck(m.bullets[k], e)
  }

  /** Bookkeeping of one enemy visit: the player is hit exactly when the moved enemy touches the
      player, and nothing at all is hit exactly when the enemy is quiet. */
  lemma VisitAccounting(m: Melee, pl: Player, i: nat, heading: Heading, spark: nat -> Draws)
    returns (playerHits: nat, bulletHits: nat)
    ensures var r := EnemyVisit(m, pl, i, heading, spark);
      playerHits <= 1
      && r.hp == m.hp - Damage * playerHits
      && r.score == m.score + Bounty * bulletHits
      && |r.particles| == |m.particles| + HitSparks * playerHits + KillSparks * bulletHits
      && |r.bullets| == |m.bullets| - bulletHits
      && |m.enemies| - playerHits - bulletHits <= |r.enemies| <= |m.enemies| - playerHits
      && (playerHits == 1 <==> i < |m.enemies| && Touches(Chase(m.enemies[i], pl, heading), pl))
      && (playerHits == 0 && bulletHits == 0 <==> Quiet(m, pl, i, heading))
      && (Quiet(m, pl, i, heading) ==>
            r.bullets == m.bullets && |r.enemies| == |m.enemies|
            && forall j :: 0 <= j < |m.enemies| && j != i ==> r.enemies[j] == m.enemies[j])
  {
    if i < |m.enemies| {
      var e := Chase(m.enemies[i], pl, heading);
      var m1 := PlayerHit(m.(enemies := m.enemies[i := e]), pl, e, i, spark);
      playerHits := if Touches(e, pl) then 1 else 0;
      assert m1.hp == m.hp - Damage * playerHits;
      assert |m1.particles| == |m.particles| + HitSparks * playerHits;
      assert |m1.enemies| == |m.enemies| - playerHits && m1.bullets == m.bullets;
      bulletHits := HitsAccounting(m1, e, i, 0, |m1.bullets|, spark);
    } else {
      playerHits, bulletHits := 0, 0;
    }
  }

  /** Bookkeeping of the whole enemy pass: each player hit costs exactly 10 hp, adds 10 particles
      and removes one enemy; each bullet hit scores exactly 10, adds 15 particles, consumes one
      bullet and removes at most one enemy. Nothing is hit exactly when every enemy in index range
      i up to n is quiet on arrival. */
  lemma {:induction false} FightAccounting(m: Melee, pl: Player, i: nat, n: nat, heading: Heading, spark: nat -> Draws)
    returns (playerHits: nat, bulletHits: nat)
    ensures var r := FightFrom(m, pl, i, n, heading, spark);
      r.hp == m.hp - Damage * playerHits
      && r.score == m.score + Bounty * bulletHits
      && |r.particles| == |m.particles| + HitSparks * playerHits + KillSparks * bulletHits
      && |r.bullets| == |m.bullets| - bulletHits
      && |m.enemies| - playerHits - bulletHits <= |r.enemies| <= |m.enemies| - playerHits
      && (playerHits == 0 && bulletHits == 0 <==> forall j :: i <= j < n ==> Quiet(m, pl, j, heading))
    decreases n - i
  {
    if i < n {
      var m1 := EnemyVisit(m, pl, i, heading, spark);
      var ph, bh := VisitAccounting(m, pl, i, heading, spark);
      var p2, b2 := FightAccounting(m1, pl, i + 1, n, heading, spark);
      playerHits, bulletHits := ph + p2, bh + b2;
      if Quiet(m, pl, i, heading) {
        forall j | i + 1 <= j < n
          ensures Quiet(m1, pl, j, heading) <==> Quiet(m, pl, j, heading)
        {
          if j < |m.enemies| {
            assert m1.enemies[j] == m.enemies[j];
          }
        }
      }
    } else {
      playerHits, bulletHits := 0, 0;
    }
  }

  // ---------------------------------------------------------------- the frame (lines 164-272)

  /** `update`: nothing at all once the game is over; otherwise the passes in the script's order. The
      game-over call in the timer step does not end the frame: the rest still runs. */
  function Frame(w: World, width: real, height: real, heading: Heading, spawn: Draws, spark: nat -> Draws): World
  {
    if !w.running then w
    else
      var w1 := Clock(Fire(w, heading));
      var w2 := Move(Spawn(w1, width, height, spawn), width, height);
      Fade(Fight(FlyBullets(Ground(w2)), heading, spark))
  }

  /** The timer of a running frame drops by 1/60 and never stays below 0; the game stops exactly
      when the clock runs out or hp was already down to 0; the frame counter advances by one. */
  lemma FrameClock(w: World, width: real, height: real, heading: Heading, spawn: Draws, spark: nat -> Draws)
    requires w.running
    ensures var r := Frame(w, width, height, heading, spawn, spark);
      var t := w.timeLeft - 1.0 / 60.0;
      r.timeLeft == (if t <= 0.0 then 0.0 else t)
      && (w.timeLeft >= 0.0 ==> 0.0 <= r.timeLeft <= w.timeLeft)
      && (r.running <==> t > 0.0 && w.hp > 0)
      && (r.overShown <==> w.overShown || t <= 0.0 || w.hp <= 0)
      && r.frames == w.frames + 1
  {
  }

  /** A stopped game is frozen: `update` returns at once. */
  lemma FrameStopped(w: World, width: real, height: real, heading: Heading, spawn: Draws, spark: nat -> Draws)
    requires !w.running
    ensures Frame(w, width, height, heading, spawn, spark) == w
  {
  }

  /** Across a frame the score only rises, by 10 for each bullet hit, and the platforms never
      change. */
  lemma FrameScore(w: World, width: real, height: real, heading: Heading, spawn: Draws, spark: nat -> Draws)
    returns (kills: nat)
    ensures var r := Frame(w, width, height, heading, spawn, spark);
      r.score == w.score + Bounty * kills && r.platforms == w.platforms
  {
    if w.running {
      var w1 := Clock(Fire(w, heading));
      var w2 := Move(Spawn(w1, width, height, spawn), width, height);
      var w3 := FlyBullets(Ground(w2));
      assert w3.score == w.score && w3.platforms == w.platforms;
      var w4 := Fight(w3, heading, spark);
      var ph, bh := FightAccounting(MeleeOf(w3), w3.player, 0, |w3.enemies|, heading, spark);
      assert w4.score == w3.score + Bounty * bh && w4.platforms == w3.platforms;
      kills := bh;
    } else {
      kills := 0;
    }
  }

  /** A running frame that starts with hp at or below 0 (an enemy hit in the frame before, as
      `FightAccounting` counts them) ends the game. */
  lemma LastHit(w: World, width: real, height: real, heading: Heading, spawn: Draws, spark: nat -> Draws)
    requires w.running && w.hp <= 0
    ensures !Frame(w, width, height, heading, spawn, spark).running
  {
  }

  /** The double counting of lines 248-258, on a concrete frame: bullets 0 and 2 are both inside
      enemy 0 (bullet 1 slides into slot 0 and is passed over). The enemy scores twice, the second
      hit removes enemy 1 instead, and the outer pass never visits enemy 1. */
  lemma OneEnemyScoresTwice(pl: Player, heading: Heading, spark: nat -> Draws)
    requires pl.x + pl.w < 400.0
    ensures var b := Bullet(410.0, 410.0, 0.0, 0.0, 5);
      var m := Melee(100, 0, [b, b, b], [Enemy(400.0, 400.0, 25.0, 25.0, 0.0, 0.0), Enemy(600.0, 100.0, 25.0, 25.0, 0.0, 0.0)], []);
      var r := FightFrom(m, pl, 0, 2, heading, spark);
      r.score == 20 && r.hp == 100 && r.enemies == [] && r.bullets == [b] && |r.particles| == 30
  {
    var b := Bullet(410.0, 410.0, 0.0, 0.0, 5);
    var e1 := Enemy(600.0, 100.0, 25.0, 25.0, 0.0, 0.0);
    var m := Melee(100, 0, [b, b, b], [Enemy(400.0, 400.0, 25.0, 25.0, 0.0, 0.0), e1], []);
    var e := Chase(m.enemies[0], pl, heading);
    assert e.x == 400.0 && e.y == 400.0 && e.w == 25.0 && e.h == 25.0;
    var m0 := m.(enemies := [e, e1]);
    assert PlayerHit(m.(enemies := m.enemies[0 := e]), pl, e, 0, spark) == m0;
    var h1 := BulletHit(m0, e, 0, 0, spark);
    assert FE.Splice([e, e1], 0) == [e1] && FE.Splice([b, b, b], 0) == [b, b];
    assert h1.enemies == [e1] && h1.bullets == [b, b] && h1.score == 10 && |h1.particles| == 15;
    var h2 := BulletHit(h1, e, 0, 1, spark);
    assert FE.Splice([e1], 0) == [] && FE.Splice([b, b], 1) == [b];
    assert h2.enemies == [] && h2.bullets == [b] && h2.score == 20 && |h2.particles| == 30;
    assert BulletHit(h2, e, 0, 2, spark) == h2;
    assert HitsFrom(m0, e, 0, 0, 3, spark) == h2;
    assert EnemyVisit(m, pl, 0, heading, spark) == h2;
    assert FightFrom(h2, pl, 1, 2, heading, spark) == h2;
  }

  // ---------------------------------------------------------------- the game object

  class Game {
    const width: real
    const height: real
    var score: int
    var timeLeft: real
    var hp: int
    var gameRunning: bool
    var frames: nat
    var fireDelay: nat
    var keys: Keys
    var mouse: Mouse
    var player: Player
    var platforms: seq<Rect>
    var bullets: seq<Bullet>
    var enemies: seq<Enemy>
    var particles: seq<Particle>
    /** The game-over screen is visible. */
    var overShown: bool

    function Snapshot(): World
      reads this
    {
      World(score, timeLeft, hp, gameRunning, frames, fireDelay, keys, mouse, player, platforms,
            bullets, enemies, particles, overShown)
    }

    /** The script's top level: the initial values and the six platforms pushed at load. */
    constructor (width: real, height: real)
      ensures this.width == width && this.height == height
      ensures Snapshot() == Fresh()
    {
      this.width, this.height := width, height;
      score, timeLeft, hp, gameRunning, frames := 0, RoundTime, FullHp, true, 0;
      keys, mouse := Keys(false, false, false, false), Mouse(0.0, 0.0, false);
      player := Player(100.0, 100.0, 30.0, 30.0, 0.0, 0.0, false, false);
      platforms := [];
      platforms := platforms + [Rect(0.0, 550.0, 800.0, 50.0)];
      platforms := platforms + [Rect(200.0, 400.0, 100.0, 20.0)];
      platforms := platforms + [Rect(500.0, 350.0, 100.0, 20.0)];
      platforms := platforms + [Rect(300.0, 200.0, 200.0, 20.0)];
      platforms := platforms + [Rect(50.0, 250.0, 100.0, 20.0)];
      platforms := platforms + [Rect(650.0, 150.0, 100.0, 20.0)];
      bullets, enemies, particles := [], [], [];
      fireDelay := 0;
      overShown := false;
    }

    /** `resetGame`: the frame counter, the cooldown, the inputs, the facing and the platforms stay. */
    method ResetGame()
      modifies this`score, this`timeLeft, this`hp, this`player, this`bullets, this`enemies, this`particles,
               this`gameRunning, this`overShown
      ensures score == 0 && timeLeft == RoundTime && hp == FullHp && gameRunning && !overShown
      ensures player == old(player).(x := 100.0, y := 100.0, dx := 0.0, dy := 0.0, jumping := false)
      ensures bullets == [] && enemies == [] && particles == []
    {
      score, timeLeft, hp := 0, RoundTime, FullHp;
      player := player.(x := 100.0, y := 100.0, dx := 0.0, dy := 0.0, jumping := false);
      bullets, enemies, particles := [], [], [];
      gameRunning, overShown := true, false;
    }

    method KeyDown(key: string)
      modifies this`keys
      ensures Snapshot() == old(Snapshot()).(keys := Press(old(keys), key, true))
    {
      keys := Press(keys, key, true);
    }

    method KeyUp(key: string)
      modifies this`keys
      ensures Snapshot() == old(Snapshot()).(keys := Press(old(keys), key, false))
    {
      keys := Press(keys, key, false);
    }

    /** `mousemove`, with (x, y) already relative to the canvas. */
    method MouseMove(x: real, y: real)
      modifies this`mouse
      ensures Snapshot() == old(Snapshot()).(mouse := old(mouse).(x := x, y := y))
    {
      mouse := mouse.(x := x, y := y);
    }

    method MouseButton(down: bool)
      modifies this`mouse
      ensures Snapshot() == old(Snapshot()).(mouse := old(mouse).(down := down))
    {
      mouse := mouse.(down := down);
    }

    method Shoot(heading: Heading)
      modifies this`bullets, this`fireDelay
      ensures Snapshot() == Shot(old(Snapshot()), heading)
    {
      if fireDelay > 0 {
        return;
      }
      var cx := player.x + player.w / 2.0;
      var cy := player.y + player.h / 2.0;
      var v := heading(mouse.y - cy, mouse.x - cx);
      bullets := bullets + [Bullet(cx, cy, v.0 * BulletSpeed, v.1 * BulletSpeed, BulletLife)];
      fireDelay := FireRate;
    }

    method EndRound()
      modifies this`gameRunning, this`overShown
      ensures Snapshot() == GameOver(old(Snapshot()))
    {
      gameRunning := false;
      overShown := true;
    }

    method CreateParticles(x: real, y: real, color: Color, amount: nat, spark: nat -> Draws)
      modifies this`particles
      ensures particles == Burst(old(particles), x, y, color, amount, spark)
    {
      for k := 0 to amount
        invariant particles == Burst(old(particles), x, y, color, k, spark)
      {
        BurstGrows(old(particles), x, y, color, k, spark);
        particles := particles + [Spark(x, y, color, spark(|particles|))];
      }
    }

    method Update(heading: Heading, spawn: Draws, spark: nat -> Draws)
      modifies this`fireDelay, this`bullets, this`timeLeft, this`gameRunning, this`overShown, this`hp,
              this`frames, this`enemies, this`player, this`score, this`particles
      ensures Snapshot() == Frame(old(Snapshot()), width, height, heading, spawn, spark)
    {
      if !gameRunning {
        return;
      }
      StepFire(heading);
      StepClock();
      StepSpawn(spawn);
      // Player physics, boundary, platforms
      StepPlayer();
      StepPlatforms();
      // Entity passes
      StepBullets();
      StepEnemies(heading, spark);
      StepParticles();
    }

    method StepFire(heading: Heading)
      modifies this`fireDelay, this`bullets
      ensures Snapshot() == Fire(old(Snapshot()), heading)
    {
      if fireDelay > 0 {
        fireDelay := fireDelay - 1;
      }
      if mouse.down {
        Shoot(heading);
      }
    }

    method StepSpawn(spawn: Draws)
      modifies this`frames, this`enemies
      ensures Snapshot() == Spawn(old(Snapshot()), width, height, spawn)
    {
      frames := frames + 1;
      if frames % SpawnPeriod == 0 {
        enemies := enemies + [NewEnemy(width, height, spawn)];
      }
    }

    method StepClock()
      modifies this`timeLeft, this`gameRunning, this`overShown
      ensures Snapshot() == Clock(old(Snapshot()))
    {
      timeLeft := timeLeft - 1.0 / 60.0;
      if timeLeft <= 0.0 {
        timeLeft := 0.0;
        EndRound();
      }
      if hp <= 0 {
        EndRound();
      }
    }

    method StepPlayer()
      modifies this`player, this`hp
      ensures Snapshot() == Move(old(Snapshot()), width, height)
    {
      player := Steer(player, keys);
      player := Jump(player, keys);
      player := Fall(player);
      player := Clamp(player, width);
      if player.y > height {
        hp := 0;
      }
    }

    method StepPlatforms()
      modifies this`player
      ensures Snapshot() == Ground(old(Snapshot()))
    {
      player := player.(jumping := true);
      ghost var start := player;
      for k := 0 to |platforms|
        invariant LandFrom(player, platforms, k) == LandFrom(start, platforms, 0)
      {
        var p := platforms[k];
        if player.x < p.x + p.w && player.x + player.w > p.x &&
           player.y + player.h < p.y + p.h && player.y + player.h > p.y {
          if player.dy > 0.0 && player.y + player.h - player.dy <= p.y {
            player := player.(jumping := false, dy := 0.0, y := p.y - player.h);
          }
        }
      }
    }

    /** The bullet callback before the splice test: move, age, and stop inside a platform. */
    method MoveBullet(b0: Bullet) returns (b: Bullet)
      ensures b == BulletStep(b0, platforms)
    {
      var m := b0.(x := b0.x + b0.dx, y := b0.y + b0.dy, life := b0.life - 1);
      b := m;
      for k := 0 to |platforms|
        invariant b == if exists j :: 0 <= j < k && Geometry.Inside(RectBox(platforms[j]), m.x, m.y)
                       then m.(life := 0) else m
      {
        var p := platforms[k];
        if b.x > p.x && b.x < p.x + p.w && b.y > p.y && b.y < p.y + p.h {
          b := b.(life := 0);
        }
      }
    }

    method StepBullets()
      modifies this`bullets
      ensures Snapshot() == FlyBullets(old(Snapshot()))
    {
      ghost var mover := BulletMover(platforms);
      var n := |bullets|;
      for i := 0 to n
        invariant FE.SweepFrom(bullets, i, n, mover, BulletSpent) == FE.SweepFrom(old(bullets), 0, n, mover, BulletSpent)
      {
        VisitBullet(i);
      }
      FE.SweepIsLive(FE.Pass(old(bullets), [], 0), 0, n, mover, BulletSpent);
    }

    /** One call of the bullet `forEach` callback, on index i. */
    method VisitBullet(i: nat)
      modifies this`bullets
      ensures bullets == FE.Visit(old(bullets), i, BulletMover(platforms), BulletSpent)
    {
      if i < |bullets| {
        var b := MoveBullet(bullets[i]);
        bullets := bullets[i := b];
        if b.life <= 0 {
          bullets := FE.Splice(bullets, i);
        }
      }
    }

    method StepParticles()
      modifies this`particles
      ensures Snapshot() == Fade(old(Snapshot()))
    {
      var n := |particles|;
      for i := 0 to n
        invariant FE.SweepFrom(particles, i, n, ParticleStep, ParticleSpent)
                  == FE.SweepFrom(old(particles), 0, n, ParticleStep, ParticleSpent)
      {
        ghost var before := particles;
        if i < |particles| {
          var p := particles[i];
          p := p.(x := p.x + p.dx, y := p.y + p.dy);
          p := p.(life := p.life - 1);
          particles := particles[i := p];
          if p.life <= 0 {
            particles := FE.Splice(particles, i);
          }
        }
        assert particles == FE.Visit(before, i, ParticleStep, ParticleSpent);
      }
      FE.SweepIsLive(FE.Pass(old(particles), [], 0), 0, n, ParticleStep, ParticleSpent);
    }

    function Fray(): Melee
      reads this
    {
      Melee(hp, score, bullets, enemies, particles)
    }

    method StepEnemies(heading: Heading, spark: nat -> Draws)
      modifies this`hp, this`score, this`bullets, this`enemies, this`particles
      ensures Snapshot() == Fight(old(Snapshot()), heading, spark)
    {
      var n := |enemies|;
      for i := 0 to n
        invariant FightFrom(Fray(), player, i, n, heading, spark) == FightFrom(old(Fray()), player, 0, n, heading, spark)
      {
        VisitEnemy(i, heading, spark);
      }
    }

    /** The callback of the enemy pass on index i. */
    method VisitEnemy(i: nat, heading: Heading, spark: nat -> Draws)
      modifies this`hp, this`score, this`bullets, this`enemies, this`particles
      ensures Fray() == EnemyVisit(old(Fray()), player, i, heading, spark)
    {
      if i < |enemies| {
        var e := enemies[i];
        e := e.(x := e.x + e.dx, y := e.y + e.dy);
        var v := heading(player.y - e.y, player.x - e.x);
        e := e.(dx := v.0 * HomingSpeed, dy := v.1 * HomingSpeed);
        assert e == Chase(old(enemies)[i], player, heading);
        enemies := enemies[i := e];
        HitPlayer(e, i, spark);
        ShootDown(e, i, spark);
      }
    }

    /** Lines 244-249: the enemy value e of index i runs into the player. */
    method HitPlayer(e: Enemy, i: nat, spark: nat -> Draws)
      modifies this`hp, this`enemies, this`particles
      ensures Fray() == PlayerHit(old(Fray()), player, e, i, spark)
    {
      if e.x < player.x + player.w && e.x + e.w > player.x &&
         e.y < player.y + player.h && e.y + e.h > player.y {
        hp := hp - Damage;
        CreateParticles(e.x + e.w / 2.0, e.y + e.h / 2.0, Red, HitSparks, spark);
        enemies := FE.Splice(enemies, i);
      }
    }

    /** The inner bullet pass of the enemy callback, for the enemy value e of index i. */
    method ShootDown(e: Enemy, i: nat, spark: nat -> Draws)
      modifies this`score, this`bullets, this`enemies, this`particles
      ensures Fray() == HitsFrom(old(Fray()), e, i, 0, old(|bullets|), spark)
    {
      var nb := |bullets|;
      for bi := 0 to nb
        invariant HitsFrom(Fray(), e, i, bi, nb, spark) == HitsFrom(old(Fray()), e, i, 0, nb, spark)
      {
        Strike(e, i, bi, spark);
      }
    }

    /** One call of the inner callback: bullet index bi against the enemy value e of index i. */
    method Strike(e: Enemy, i: nat, bi: nat, spark: nat -> Draws)
      modifies this`score, this`bullets, this`enemies, this`particles
      ensures Fray() == BulletHit(old(Fray()), e, i, bi, spark)
    {
      if bi < |bullets| {
        var b := bullets[bi];
        if b.x > e.x && b.x < e.x + e.w && b.y > e.y && b.y < e.y + e.h {
          score := score + Bounty;
          CreateParticles(e.x + e.w / 2.0, e.y + e.h / 2.0, Yellow, KillSparks, spark);
          enemies := FE.Splice(enemies, i);
          bullets := FE.Splice(bullets, bi);
        }
      }
    }
  }
}
