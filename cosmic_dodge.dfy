/**
 * Cosmic Dodge (games/cosmic-dodge/script.js): a ship at the bottom of the canvas dodges falling
 * meteors; every meteor that falls past the bottom scores a point, and the first one that touches
 * the ship ends the game. One call of `loop` is one animation frame.
 *
 * Date.now() values are integer milliseconds passed in; Math.random() results come as draw
 * records; canvas.width and canvas.height are the class's constants.
 */
module CosmicDodge {
  import Geometry
  import FE = ForEachSplice

  const MeteorSpeed: real := 3.0
  const MeteorSpawnRate: int := 1000
  const MinInterval: int := 200
  const StarCount: nat := 100

  datatype Ship = Ship(x: real, y: real, width: real, height: real, speed: real, dx: real)
  datatype Meteor = Meteor(x: real, y: real, radius: real, speed: real)
  datatype Star = Star(x: real, y: real, size: real, speed: real)
  /** Two Math.random() results for a meteor: its column and its radius. */
  datatype MeteorDraw = MeteorDraw(column: real, size: real)
  /** Four Math.random() results for a star. */
  datatype StarDraw = StarDraw(x: real, y: real, size: real, speed: real)

  /** The state `updateMeteors`, `startGame` and `endGame` change. */
  datatype Sky = Sky(score: int, running: bool, overShown: bool, meteors: seq<Meteor>, lastSpawn: int)

  // ---------------------------------------------------------------- stars (lines 29-46)

  function NewStar(width: real, height: real, d: StarDraw): Star
  {
    Star(d.x * width, d.y * height, d.size * 2.0, d.speed * 0.5 + 0.1)
  }

  /** The state half of `drawStars` for one star: fall, and wrap to the top past the bottom. */
  function Drift(s: Star, height: real): Star
  {
    var t := s.(y := s.y + s.speed);
    if t.y > height then t.(y := 0.0) else t
  }

  /** Every star is on the canvas and moves down. */
  predicate StarsOnCanvas(stars: seq<Star>, height: real)
  {
    forall i :: 0 <= i < |stars| ==> 0.0 <= stars[i].y <= height && stars[i].speed > 0.0
  }

  /** A star on the canvas stays on it; only its height changes. */
  lemma DriftStays(s: Star, height: real)
    requires 0.0 <= s.y <= height && s.speed > 0.0
    ensures var t := Drift(s, height);
      0.0 <= t.y <= height && t == s.(y := t.y) && (t.y == 0.0 <==> s.y + s.speed > height)
  {
  }

  // ---------------------------------------------------------------- ship (lines 119-125)

  /** `updateShip`. */
  function MoveShip(s: Ship, width: real): Ship
  {
    var a := s.(x := s.x + s.dx);
    var b := if a.x < a.width / 2.0 then a.(x := a.width / 2.0) else a;
    if b.x > width - b.width / 2.0 then b.(x := width - b.width / 2.0) else b
  }

  /** The ship ends up within half its width of both edges when it fits on the canvas, and moves
      freely when it stays inside. */
  lemma ShipStaysOnCanvas(s: Ship, width: real)
    ensures var r := MoveShip(s, width);
      r == s.(x := r.x)
      && (s.width <= width ==> s.width / 2.0 <= r.x <= width - s.width / 2.0)
      && (s.width / 2.0 <= s.x + s.dx <= width - s.width / 2.0 ==> r.x == s.x + s.dx)
  {
  }

  // ---------------------------------------------------------------- meteors (lines 84-117)

  function Max(a: int, b: int): int { if a < b then b else a }

  /** Milliseconds between meteors at a given score. */
  function SpawnInterval(score: int): int
  {
    Max(MinInterval, MeteorSpawnRate - score * 10)
  }

  /** The game gets harder with the score, down to one meteor per 200 ms. */
  lemma IntervalRules(score: int, later: int)
    requires score <= later
    ensures SpawnInterval(score) >= MinInterval
    ensures SpawnInterval(later) <= SpawnInterval(score)
    ensures score >= 80 ==> SpawnInterval(score) == MinInterval
  {
  }

  function NewMeteor(width: real, score: int, d: MeteorDraw): Meteor
  {
    Meteor(d.column * (width - 20.0) + 10.0, -20.0, d.size * 15.0 + 10.0, MeteorSpeed + score as real * 0.1)
  }

  /** Lines 85-93: a meteor when the interval has passed, and the clock restarts. */
  function Spawned(s: Sky, width: real, now: int, d: MeteorDraw): Sky
  {
    if now - s.lastSpawn > SpawnInterval(s.score) then
      s.(meteors := s.meteors + [NewMeteor(width, s.score, d)], lastSpawn := now)
    else s
  }

  /** A new meteor enters above the top edge at speed 3 + score/10, over the canvas' width with
      a 10-pixel margin, with a radius from 10 up to 25. */
  lemma NewMeteorRules(width: real, score: int, d: MeteorDraw)
    requires 0.0 <= d.column < 1.0 && 0.0 <= d.size < 1.0 && width > 20.0
    ensures var m := NewMeteor(width, score, d);
      m.y == -20.0 && m.speed == 3.0 + score as real * 0.1
      && 10.0 <= m.x < width - 10.0 && 10.0 <= m.radius < 25.0
  {
    Spread(d.column, 10.0, width - 10.0);
    assert (width - 10.0) - 10.0 == width - 20.0;
    Spread(d.size, 10.0, 25.0);
  }

  /** A draw r in [0, 1) scaled onto [lo, hi). */
  lemma Spread(r: real, lo: real, hi: real)
    requires 0.0 <= r < 1.0 && lo < hi
    ensures lo <= r * (hi - lo) + lo < hi
  {
    var b := 1.0 - r;
    assert b * (hi - lo) > 0.0;
    assert (hi - lo) - r * (hi - lo) == b * (hi - lo);
  }

  /** Once the interval has passed one meteor is added behind the others and the spawn time is
      recorded; before that nothing changes. */
  lemma SpawnRules(s: Sky, width: real, now: int, d: MeteorDraw)
    ensures var r := Spawned(s, width, now, d);
      (now - s.lastSpawn > SpawnInterval(s.score) ==>
        r == s.(meteors := r.meteors, lastSpawn := now)
        && |r.meteors| == |s.meteors| + 1 && r.meteors[..|s.meteors|] == s.meteors
        && r.meteors[|s.meteors|] == NewMeteor(width, s.score, d))
      && (now - s.lastSpawn <= SpawnInterval(s.score) ==> r == s)
  {
    if now - s.lastSpawn > SpawnInterval(s.score) {
      var r := Spawned(s, width, now, d);
      assert r.meteors[..|s.meteors|] == s.meteors;
    }
  }

  function Fall(m: Meteor): Meteor
  {
    m.(y := m.y + m.speed)
  }

  /** The meteor has fallen more than 50 past the bottom edge. */
  function Gone(height: real): Meteor -> bool
  {
    (m: Meteor) => m.y > height + 50.0
  }

  function MeteorBox(m: Meteor): Geometry.Box
  {
    Geometry.Box(m.x - m.radius, m.y - m.radius, m.x + m.radius, m.y + m.radius)
  }

  function ShipBox(s: Ship): Geometry.Box
  {
    Geometry.Box(s.x - s.width / 2.0, s.y, s.x + s.width / 2.0, s.y + s.height)
  }

  /** The test of lines 101-106. */
  predicate Hits(m: Meteor, s: Ship)
  {
    m.y + m.radius > s.y && m.y - m.radius < s.y + s.height &&
    m.x + m.radius > s.x - s.width / 2.0 && m.x - m.radius < s.x + s.width / 2.0
  }

  /** The test means that the meteor's bounding square and the ship's box share a point. */
  lemma HitIsOverlap(m: Meteor, s: Ship)
    ensures Geometry.Meet(MeteorBox(m), ShipBox(s)) ==> Hits(m, s)
    ensures Hits(m, s) && m.radius > 0.0 && s.width > 0.0 && s.height > 0.0 ==> Geometry.Meet(MeteorBox(m), ShipBox(s))
  {
    Geometry.SharedPoint(MeteorBox(m), ShipBox(s));
  }

  predicate AnyHit(ms: seq<Meteor>, s: Ship)
  {
    exists k :: 0 <= k < |ms| && Hits(ms[k], s)
  }

  lemma AnyHitSnoc(ms: seq<Meteor>, m: Meteor, s: Ship)
    ensures AnyHit(ms + [m], s) <==> AnyHit(ms, s) || Hits(m, s)
  {
    if Hits(m, s) {
      assert (ms + [m])[|ms|] == m;
    }
    if AnyHit(ms, s) {
      var k :| 0 <= k < |ms| && Hits(ms[k], s);
      assert (ms + [m])[k] == ms[k];
    }
  }

  /** `updateMeteors`: spawn, then the `forEach` that moves, tests and removes the meteors. `endGame`
      inside the pass does not stop it, so meteors behind the one that hit are still moved and
      still score. */
  function MeteorPass(s: Sky, ship: Ship, width: real, height: real, now: int, d: MeteorDraw): Sky
  {
    var s1 := Spawned(s, width, now, d);
    var p := FE.ForEach(s1.meteors, Fall, Gone(height));
    var hit := AnyHit(p.visited, ship);
    s1.(meteors := p.live, score := s1.score + p.removed, running := s1.running && !hit,
        overShown := s1.overShown || hit)
  }

  /** Every meteor the pass drops scores exactly one point, and a meteor is dropped only when it
      was visited and had fallen past the bottom; the game ends exactly when a moved meteor touched
      the ship. */
  lemma MeteorPassRules(s: Sky, ship: Ship, width: real, height: real, now: int, d: MeteorDraw)
    ensures var s1 := Spawned(s, width, now, d);
      var p := FE.ForEach(s1.meteors, Fall, Gone(height));
      var r := MeteorPass(s, ship, width, height, now, d);
      r.score == s.score + p.removed
      && p.removed == FE.CountDead(p.visited, Gone(height))
      && |r.meteors| + p.removed == |s1.meteors|
      && (r.running <==> s.running && forall k :: 0 <= k < |p.visited| ==> !Hits(p.visited[k], ship))
      && (r.overShown <==> s.overShown || exists k :: 0 <= k < |p.visited| && Hits(p.visited[k], ship))
      && (forall m :: m in r.meteors ==> (m in p.visited && m.y <= height + 50.0) || m in s1.meteors)
      && r.lastSpawn == s1.lastSpawn
  {
    var s1 := Spawned(s, width, now, d);
    FE.ForEachIsSkipSweep(s1.meteors, Fall, Gone(height));
    FE.SweepCounts(s1.meteors, Fall, Gone(height));
    FE.SweepKeeps(s1.meteors, Fall, Gone(height));
  }

  // ---------------------------------------------------------------- the game object

  class Game {
    const width: real
    const height: real
    var score: int
    var gameRunning: bool
    var ship: Ship
    var meteors: seq<Meteor>
    var lastSpawn: int
    var stars: seq<Star>
    /** The game-over screen is visible. */
    var overShown: bool

    function Snapshot(): Sky
      reads this
    {
      Sky(score, gameRunning, overShown, meteors, lastSpawn)
    }

    predicate Valid()
      reads this
    {
      |stars| == StarCount && StarsOnCanvas(stars, height)
    }

    /** The script's top level: the ship, 100 stars, and the initial `drawStars` that moves them
        once. The game waits for the start button. */
    constructor (width: real, height: real, starDraw: nat -> StarDraw)
      requires height >= 0.0
      requires forall i :: 0 <= i < StarCount ==>
        0.0 <= starDraw(i).x < 1.0 && 0.0 <= starDraw(i).y < 1.0 &&
        0.0 <= starDraw(i).size < 1.0 && 0.0 <= starDraw(i).speed < 1.0
      ensures this.width == width && this.height == height
      ensures score == 0 && !gameRunning && !overShown && meteors == [] && lastSpawn == 0
      ensures ship == Ship(width / 2.0, height - 80.0, 40.0, 40.0, 5.0, 0.0)
      ensures |stars| == StarCount
      ensures forall i :: 0 <= i < StarCount ==> stars[i] == Drift(NewStar(width, height, starDraw(i)), height)
      ensures Valid()
    {
      this.width, this.height := width, height;
      score, gameRunning, overShown := 0, false, false;
      ship := Ship(width / 2.0, height - 80.0, 40.0, 40.0, 5.0, 0.0);
      meteors, lastSpawn := [], 0;
      stars := [];
      new;
      for i := 0 to StarCount
        invariant |stars| == i && StarsOnCanvas(stars, height)
        invariant forall k :: 0 <= k < i ==> stars[k] == NewStar(width, height, starDraw(k))
        invariant score == 0 && !gameRunning && !overShown && meteors == [] && lastSpawn == 0
        invariant ship == Ship(width / 2.0, height - 80.0, 40.0, 40.0, 5.0, 0.0)
      {
        var d := starDraw(i);
        assert d.y * height <= height;
        stars := stars + [NewStar(width, height, d)];
      }
      MoveStars();
    }

    /** The moving half of `drawStars`. */
    method MoveStars()
      modifies this`stars
      ensures |stars| == |old(stars)|
      ensures forall i :: 0 <= i < |stars| ==> stars[i] == Drift(old(stars)[i], height)
      ensures StarsOnCanvas(old(stars), height) ==> StarsOnCanvas(stars, height)
    {
      for i := 0 to |stars|
        invariant |stars| == |old(stars)|
        invariant forall k :: 0 <= k < i ==> stars[k] == Drift(old(stars)[k], height)
        invariant forall k :: i <= k < |stars| ==> stars[k] == old(stars)[k]
      {
        var star := stars[i];
        star := star.(y := star.y + star.speed);
        if star.y > height {
          star := star.(y := 0.0);
        }
        stars := stars[i := star];
      }
      if StarsOnCanvas(old(stars), height) {
        forall k | 0 <= k < |stars|
          ensures 0.0 <= stars[k].y <= height && stars[k].speed > 0.0
        {
          DriftStays(old(stars)[k], height);
        }
      }
    }

    method UpdateShip()
      modifies this`ship
      ensures ship == MoveShip(old(ship), width)
    {
      ship := ship.(x := ship.x + ship.dx);
      if ship.x < ship.width / 2.0 {
        ship := ship.(x := ship.width / 2.0);
      }
      if ship.x > width - ship.width / 2.0 {
        ship := ship.(x := width - ship.width / 2.0);
      }
    }

    method EndGame()
      modifies this`gameRunning, this`overShown
      ensures !gameRunning && overShown
    {
      gameRunning := false;
      overShown := true;
    }

    method SpawnMeteor(now: int, d: MeteorDraw)
      modifies this`meteors, this`lastSpawn
      ensures Snapshot() == Spawned(old(Snapshot()), width, now, d)
    {
      if now - lastSpawn > Max(MinInterval, MeteorSpawnRate - score * 10) {
        meteors := meteors + [NewMeteor(width, score, d)];
        lastSpawn := now;
      }
    }

    method UpdateMeteors(now: int, d: MeteorDraw)
      modifies this`meteors, this`lastSpawn, this`score, this`gameRunning, this`overShown
      ensures Snapshot() == MeteorPass(old(Snapshot()), ship, width, height, now, d)
    {
      SpawnMeteor(now, d);
      ghost var s1 := Snapshot();
      ghost var visited: seq<Meteor> := [];
      ghost var removed: nat := 0;
      var n := |meteors|;
      for index := 0 to n
        invariant FE.LoopFrom(FE.Pass(meteors, visited, removed), index, n, Fall, Gone(height))
                  == FE.ForEach(s1.meteors, Fall, Gone(height))
        invariant score == s1.score + removed && lastSpawn == s1.lastSpawn
        invariant gameRunning == (s1.running && !AnyHit(visited, ship))
        invariant overShown == (s1.overShown || AnyHit(visited, ship))
      {
        ghost var before := FE.Pass(meteors, visited, removed);
        if index < |meteors| {
          ghost var x := Fall(meteors[index]);
          VisitMeteor(index);
          AnyHitSnoc(visited, x, ship);
          visited := visited + [x];
          if Gone(height)(x) {
            removed := removed + 1;
          }
        }
        assert FE.Pass(meteors, visited, removed) == FE.VisitAt(before, index, Fall, Gone(height));
      }
    }

    /** One call of the `forEach` callback of lines 96-116. */
    method VisitMeteor(index: nat)
      requires index < |meteors|
      modifies this`meteors, this`score, this`gameRunning, this`overShown
      ensures var x := Fall(old(meteors)[index]);
        meteors == FE.Visit(old(meteors), index, Fall, Gone(height))
        && score == old(score) + (if Gone(height)(x) then 1 else 0)
        && gameRunning == (old(gameRunning) && !Hits(x, ship))
        && overShown == (old(overShown) || Hits(x, ship))
    {
      var m := meteors[index];
      m := m.(y := m.y + m.speed);
      meteors := meteors[index := m];
      if m.y + m.radius > ship.y && m.y - m.radius < ship.y + ship.height &&
         m.x + m.radius > ship.x - ship.width / 2.0 && m.x - m.radius < ship.x + ship.width / 2.0 {
        EndGame();
      }
      if m.y > height + 50.0 {
        score := score + 1;
        meteors := FE.Splice(meteors, index);
      }
    }

    /** `loop`: nothing once the game is over; else the stars, the ship and the meteors. */
    method Loop(now: int, d: MeteorDraw)
      modifies this`stars, this`ship, this`meteors, this`lastSpawn, this`score, this`gameRunning, this`overShown
      ensures !old(gameRunning) ==> Snapshot() == old(Snapshot()) && stars == old(stars) && ship == old(ship)
      ensures old(gameRunning) ==>
        |stars| == |old(stars)| && (forall i :: 0 <= i < |stars| ==> stars[i] == Drift(old(stars)[i], height))
        && ship == MoveShip(old(ship), width)
        && Snapshot() == MeteorPass(old(Snapshot()), ship, width, height, now, d)
      ensures old(Valid()) ==> Valid()
    {
      if !gameRunning {
        return;
      }
      MoveStars();
      UpdateShip();
      UpdateMeteors(now, d);
    }

    /** `startGame`: a clean sky at time `start`, then the first frame at time `now` straight away. */
    method StartGame(start: int, now: int, d: MeteorDraw)
      modifies this`stars, this`ship, this`meteors, this`lastSpawn, this`score, this`gameRunning, this`overShown
      ensures |stars| == |old(stars)| && forall i :: 0 <= i < |stars| ==> stars[i] == Drift(old(stars)[i], height)
      ensures ship == MoveShip(old(ship), width)
      ensures Snapshot() == MeteorPass(Sky(0, true, false, [], start), ship, width, height, now, d)
      ensures old(Valid()) ==> Valid()
    {
      meteors := [];
      score := 0;
      gameRunning := true;
      overShown := false;
      lastSpawn := start;
      Loop(now, d);
    }

    /** The keydown handler: the movement keys, and space to play again from the game-over screen. */
    method KeyDown(key: string, start: int, now: int, d: MeteorDraw)
      modifies this`stars, this`ship, this`meteors, this`lastSpawn, this`score, this`gameRunning, this`overShown
      ensures var moved := if key == "ArrowLeft" || key == "a" then old(ship).(dx := -old(ship).speed)
                           else old(ship);
              var steered := if key == "ArrowRight" || key == "d" then moved.(dx := moved.speed) else moved;
              if key == " " && !old(gameRunning) && old(overShown) then
                ship == MoveShip(steered, width)
                && |stars| == |old(stars)| && (forall i :: 0 <= i < |stars| ==> stars[i] == Drift(old(stars)[i], height))
                && Snapshot() == MeteorPass(Sky(0, true, false, [], start), ship, width, height, now, d)
              else
                ship == steered && Snapshot() == old(Snapshot()) && stars == old(stars)
      ensures old(Valid()) ==> Valid()
    {
      if key == "ArrowLeft" || key == "a" {
        ship := ship.(dx := -ship.speed);
      }
      if key == "ArrowRight" || key == "d" {
        ship := ship.(dx := ship.speed);
      }
      if key == " " && !gameRunning && overShown {
        StartGame(start, now, d);
      }
    }

    method KeyUp(key: string)
      modifies this`ship
      ensures key in {"ArrowLeft", "ArrowRight", "a", "d"} ==> ship == old(ship).(dx := 0.0)
      ensures key !in {"ArrowLeft", "ArrowRight", "a", "d"} ==> ship == old(ship)
    {
      if key == "ArrowLeft" || key == "ArrowRight" || key == "a" || key == "d" {
        ship := ship.(dx := 0.0);
      }
    }
  }

  /** The first frame after a start scores nothing and leaves at most the one meteor it may have
      spawned; when it comes within a second of the start the sky is still empty and the game runs.
      After its first fall a new meteor is at y = -20 + 3 = -17, and the pass drops a meteor only
      below height + 50, so the bound on the height (met by every canvas) keeps it on screen. */
  lemma FirstFrame(ship: Ship, width: real, height: real, start: int, now: int, d: MeteorDraw)
    requires height >= -67.0
    ensures var r := MeteorPass(Sky(0, true, false, [], start), ship, width, height, now, d);
      r.score == 0 && |r.meteors| <= 1
      && (now - start <= MeteorSpawnRate ==> r.meteors == [] && r.running && !r.overShown && r.lastSpawn == start)
  {
    var s := Sky(0, true, false, [], start);
    var s1 := Spawned(s, width, now, d);
    if now - start > MeteorSpawnRate {
      var m := NewMeteor(width, 0, d);
      assert s1.meteors == [m];
      var x := Fall(m);
      assert !Gone(height)(x);
      assert FE.VisitAt(FE.Pass([m], [], 0), 0, Fall, Gone(height)) == FE.Pass([x], [x], 0);
      assert FE.ForEach([m], Fall, Gone(height)) == FE.LoopFrom(FE.Pass([x], [x], 0), 1, 1, Fall, Gone(height));
    } else {
      assert FE.ForEach([], Fall, Gone(height)) == FE.Pass([], [], 0);
    }
  }
}
