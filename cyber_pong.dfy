/**
 * Cyber Pong (games/cyber-pong/script.js): the left paddle follows the mouse, the right paddle is
 * driven by the a and d keys, and `update` runs sixty times a second. A ball, two paddles and the
 * key flags are the whole state; canvas.width and canvas.height are the class's constants.
 *
 * The reflection angle goes through Math.cos and Math.sin: `deflect(t)` stands for
 * (cos(t·π/4), sin(t·π/4)). A call of Math.random() is the parameter `coin`.
 */
module CyberPong {
  import Geometry

  const BallRadius: real := 10.0
  const ServeSpeed: real := 7.0
  const SpeedUp: real := 0.2
  const PaddleSpeed: real := 8.0
  const PaddleWidth: real := 15.0
  const PaddleHeight: real := 100.0

  datatype Ball = Ball(x: real, y: real, radius: real, velocityX: real, velocityY: real, speed: real)
  datatype Paddle = Paddle(x: real, y: real, width: real, height: real, score: int)
  datatype Keys = Keys(a: bool, d: bool)
  /** The ball and the two paddles. */
  datatype Table = Table(ball: Ball, user: Paddle, player2: Paddle)

  /** deflect(t) = (cos(t·π/4), sin(t·π/4)). */
  type Deflect = real -> (real, real)

  /** The shapes the script never changes, and the speed that only grows between serves. */
  predicate Shaped(t: Table, width: real)
  {
    t.ball.radius == BallRadius && t.ball.speed >= ServeSpeed
    && t.user.x == 0.0 && t.user.width == PaddleWidth && t.user.height == PaddleHeight
    && t.player2.x == width - PaddleWidth && t.player2.width == PaddleWidth && t.player2.height == PaddleHeight
  }

  /** The objects as the script creates them. */
  function Opening(width: real, height: real): (t: Table)
    ensures Shaped(t, width)
  {
    Table(Ball(width / 2.0, height / 2.0, BallRadius, 5.0, 5.0, ServeSpeed),
          Paddle(0.0, (height - PaddleHeight) / 2.0, PaddleWidth, PaddleHeight, 0),
          Paddle(width - PaddleWidth, (height - PaddleHeight) / 2.0, PaddleWidth, PaddleHeight, 0))
  }

  // ---------------------------------------------------------------- collision (lines 74-86)

  function BallBox(b: Ball): Geometry.Box
  {
    Geometry.Box(b.x - b.radius, b.y - b.radius, b.x + b.radius, b.y + b.radius)
  }

  function PaddleBox(p: Paddle): Geometry.Box
  {
    Geometry.Box(p.x, p.y, p.x + p.width, p.y + p.height)
  }

  /** `collision(b, p)`, on the edges it computes. */
  predicate Collision(b: Ball, p: Paddle)
  {
    var pTop, pBottom, pLeft, pRight := p.y, p.y + p.height, p.x, p.x + p.width;
    var bTop, bBottom, bLeft, bRight := b.y - b.radius, b.y + b.radius, b.x - b.radius, b.x + b.radius;
    pLeft < bRight && pTop < bBottom && pRight > bLeft && pBottom > bTop
  }

  /** The test holds exactly when the paddle and the ball's bounding square share a point (for a
      ball of positive radius and a paddle of positive size). */
  lemma CollisionIsOverlap(b: Ball, p: Paddle)
    ensures Geometry.Meet(BallBox(b), PaddleBox(p)) ==> Collision(b, p)
    ensures Collision(b, p) && b.radius > 0.0 && p.width > 0.0 && p.height > 0.0 ==>
      Geometry.Meet(BallBox(b), PaddleBox(p))
  {
    Geometry.SharedPoint(BallBox(b), PaddleBox(p));
  }

  // ---------------------------------------------------------------- the steps of update (lines 88-140)

  /** Lines 90-91. */
  function Advance(b: Ball): Ball
  {
    b.(x := b.x + b.velocityX, y := b.y + b.velocityY)
  }

  /** Lines 94-96: both keys held cancel out. */
  function Steer(p: Paddle, k: Keys): Paddle
  {
    var up := if k.a then p.(y := p.y - PaddleSpeed) else p;
    if k.d then up.(y := up.y + PaddleSpeed) else up
  }

  /** Lines 99-102: the top edge first, then the bottom edge. */
  function ClampPaddle(p: Paddle, height: real): Paddle
  {
    var q := if p.y < 0.0 then p.(y := 0.0) else p;
    if q.y + q.height > height then q.(y := height - q.height) else q
  }

  /** Lines 105-107. */
  function Bounce(b: Ball, height: real): Ball
  {
    if b.y - b.radius < 0.0 || b.y + b.radius > height then b.(velocityY := -b.velocityY) else b
  }

  /** The ball's right edge is left of the centre line. */
  predicate LeftHalf(b: Ball, width: real)
  {
    b.x + b.radius < width / 2.0
  }

  /** Line 110: the paddle the ball is tested against. */
  function Target(b: Ball, user: Paddle, player2: Paddle, width: real): Paddle
  {
    if LeftHalf(b, width) then user else player2
  }

  /** Where on the paddle the ball hit: -1 at the top end, 0 in the middle, 1 at the bottom end. */
  function CollidePoint(b: Ball, p: Paddle): real
    requires p.height > 0.0
  {
    (b.y - (p.y + p.height / 2.0)) / (p.height / 2.0)
  }

  /** Lines 112-128: on a hit, send the ball back at the angle of the hit point, then speed up. */
  function Rebound(b: Ball, p: Paddle, width: real, deflect: Deflect): Ball
    requires p.height > 0.0
  {
    if Collision(b, p) then
      var v := deflect(CollidePoint(b, p));
      var direction := if LeftHalf(b, width) then 1.0 else -1.0;
      b.(velocityX := direction * b.speed * v.0, velocityY := b.speed * v.1, speed := b.speed + SpeedUp)
    else b
  }

  /** `resetBall`: back to the centre at serve speed, the horizontal direction flipped, and a coin
      for the vertical one. */
  function ResetBall(b: Ball, width: real, height: real, coin: real): Ball
  {
    b.(x := width / 2.0, y := height / 2.0, speed := ServeSpeed, velocityX := -b.velocityX,
       velocityY := 5.0 * (if coin > 0.5 then 1.0 else -1.0))
  }

  /** Lines 131-139: a point for the side the ball did not leave by. */
  function Score(t: Table, width: real, height: real, coin: real): Table
  {
    if t.ball.x - t.ball.radius < 0.0 then
      Table(ResetBall(t.ball, width, height, coin), t.user, t.player2.(score := t.player2.score + 1))
    else if t.ball.x + t.ball.radius > width then
      Table(ResetBall(t.ball, width, height, coin), t.user.(score := t.user.score + 1), t.player2)
    else t
  }

  /** One `update`. */
  function Step(t: Table, k: Keys, width: real, height: real, deflect: Deflect, coin: real): Table
    requires Shaped(t, width)
  {
    var b1 := Advance(t.ball);
    var p2 := ClampPaddle(Steer(t.player2, k), height);
    var u := ClampPaddle(t.user, height);
    var b2 := Bounce(b1, height);
    var b3 := Rebound(b2, Target(b2, u, p2, width), width, deflect);
    Score(Table(b3, u, p2), width, height, coin)
  }

  // ---------------------------------------------------------------- properties

  /** After the clamp a paddle lies on the canvas when it fits, and one already on it is left alone. */
  lemma ClampKeepsOnCanvas(p: Paddle, height: real)
    ensures var q := ClampPaddle(p, height);
      q == p.(y := q.y)
      && (p.height <= height ==> 0.0 <= q.y <= height - p.height)
      && (0.0 <= p.y <= height - p.height ==> q == p)
  {
  }

  /** The vertical velocity flips exactly when an edge of the ball is past the top or bottom wall. */
  lemma BounceRule(b: Ball, height: real)
    ensures var r := Bounce(b, height);
      r == b.(velocityY := r.velocityY)
      && (r.velocityY == -b.velocityY <== (b.y - b.radius < 0.0 || b.y + b.radius > height))
      && (0.0 <= b.y - b.radius && b.y + b.radius <= height ==> r == b)
  {
  }

  /** A hit sends the ball away from the paddle that hit it: rightwards from the user's paddle on
      the left half, leftwards from player 2's. The angle stays within ±45° of the hit point's
      scale, so its cosine is positive for every hit point in (-2, 2), and the hit point of a
      colliding ball on a paddle lies in (-1.2, 1.2). */
  lemma ReboundDirection(t: Table, width: real, height: real, deflect: Deflect)
    requires Shaped(t, width)
    requires forall c :: -2.0 < c < 2.0 ==> deflect(c).0 > 0.0
    ensures var b := t.ball; var p := Target(b, t.user, t.player2, width);
      var r := Rebound(b, p, width, deflect);
      Collision(b, p) ==>
        -1.2 < CollidePoint(b, p) < 1.2
        && r.speed == b.speed + SpeedUp
        && (LeftHalf(b, width) ==> r.velocityX > 0.0)
        && (!LeftHalf(b, width) ==> r.velocityX < 0.0)
  {
    var b := t.ball;
    var p := Target(b, t.user, t.player2, width);
    if Collision(b, p) {
      var d := b.y - (p.y + p.height / 2.0);
      assert -60.0 < d < 60.0;
      var c := CollidePoint(b, p);
      assert c == d / 50.0;
      var v := deflect(c);
      assert v.0 > 0.0;
      assert b.speed * v.0 > 0.0;
    }
  }

  /** `resetBall` centres the ball at serve speed, reverses its horizontal velocity and serves
      vertically at ±5. */
  lemma ResetBallRule(b: Ball, width: real, height: real, coin: real)
    ensures var r := ResetBall(b, width, height, coin);
      r.x == width / 2.0 && r.y == height / 2.0 && r.speed == ServeSpeed && r.radius == b.radius
      && r.velocityX == -b.velocityX
      && (r.velocityY == 5.0 || r.velocityY == -5.0) && (r.velocityY == 5.0 <==> coin > 0.5)
  {
  }

  /** At most one point per update: the left exit scores for player 2, the right exit for the
      user, and the ball is then served again; the speed rises by exactly 0.2 on a paddle hit,
      drops back to 7 on a point and is otherwise unchanged; the shapes stay and both paddles end
      up on a canvas at least a paddle high. */
  lemma StepRules(t: Table, k: Keys, width: real, height: real, deflect: Deflect, coin: real)
    requires Shaped(t, width)
    ensures var r := Step(t, k, width, height, deflect, coin);
      var b := Bounce(Advance(t.ball), height);
      var u := ClampPaddle(t.user, height);
      var p2 := ClampPaddle(Steer(t.player2, k), height);
      var hit := Collision(b, Target(b, u, p2, width));
      var leftOut := b.x - b.radius < 0.0;
      var rightOut := !leftOut && b.x + b.radius > width;
      Shaped(r, width)
      && r.player2.score == t.player2.score + (if leftOut then 1 else 0)
      && r.user.score == t.user.score + (if rightOut then 1 else 0)
      && r.user.score + r.player2.score <= t.user.score + t.player2.score + 1
      && r.ball.speed == (if leftOut || rightOut then ServeSpeed else if hit then t.ball.speed + SpeedUp else t.ball.speed)
      && (leftOut || rightOut ==> r.ball.x == width / 2.0 && r.ball.y == height / 2.0)
      && (PaddleHeight <= height ==> 0.0 <= r.user.y <= height - PaddleHeight && 0.0 <= r.player2.y <= height - PaddleHeight)
  {
    var b := Bounce(Advance(t.ball), height);
    var u := ClampPaddle(t.user, height);
    var p2 := ClampPaddle(Steer(t.player2, k), height);
    ClampKeepsOnCanvas(t.user, height);
    ClampKeepsOnCanvas(Steer(t.player2, k), height);
    var b3 := Rebound(b, Target(b, u, p2, width), width, deflect);
    assert b3.x == b.x && b3.radius == b.radius && b3.speed >= b.speed;
  }

  /** A frame keeps the ball's and the paddles' shapes and positions, and the speed never drops
      below the serve speed. */
  lemma StepShaped(t: Table, k: Keys, width: real, height: real, deflect: Deflect, coin: real)
    requires Shaped(t, width)
    ensures Shaped(Step(t, k, width, height, deflect, coin), width)
  {
    var b := Bounce(Advance(t.ball), height);
    var u := ClampPaddle(t.user, height);
    var p2 := ClampPaddle(Steer(t.player2, k), height);
    var b3 := Rebound(b, Target(b, u, p2, width), width, deflect);
    assert b3.radius == b.radius && b3.speed >= b.speed;
  }

  /** The restart button: both scores back to 0 and a fresh serve. */
  function Restart(t: Table, width: real, height: real, coin: real): (r: Table)
    ensures r.user.score == 0 && r.player2.score == 0
    ensures r.ball.x == width / 2.0 && r.ball.y == height / 2.0 && r.ball.speed == ServeSpeed
    ensures r.user.y == t.user.y && r.player2.y == t.player2.y
    ensures Shaped(t, width) ==> Shaped(r, width)
  {
    Table(ResetBall(t.ball, width, height, coin), t.user.(score := 0), t.player2.(score := 0))
  }

  /** The keydown/keyup test of lines 174-175 and 179-180. */
  function PressKey(k: Keys, key: string, down: bool): (r: Keys)
    ensures key == "a" || key == "A" ==> r.a == down
    ensures key == "d" || key == "D" ==> r.d == down
    ensures key != "a" && key != "A" ==> r.a == k.a
    ensures key != "d" && key != "D" ==> r.d == k.d
  {
    var k1 := if key == "a" || key == "A" then k.(a := down) else k;
    if key == "d" || key == "D" then k1.(d := down) else k1
  }

  // ---------------------------------------------------------------- the game object

  class Game {
    const width: real
    const height: real
    var ball: Ball
    var user: Paddle
    var player2: Paddle
    var keys: Keys

    function Snapshot(): Table
      reads this
    {
      Table(ball, user, player2)
    }

    predicate Valid()
      reads this
    {
      Shaped(Snapshot(), width)
    }

    constructor (width: real, height: real)
      ensures this.width == width && this.height == height
      ensures Snapshot() == Opening(width, height) && keys == Keys(false, false)
      ensures Valid()
    {
      this.width, this.height := width, height;
      ball := Ball(width / 2.0, height / 2.0, BallRadius, 5.0, 5.0, ServeSpeed);
      user := Paddle(0.0, (height - PaddleHeight) / 2.0, PaddleWidth, PaddleHeight, 0);
      player2 := Paddle(width - PaddleWidth, (height - PaddleHeight) / 2.0, PaddleWidth, PaddleHeight, 0);
      keys := Keys(false, false);
    }

    method ResetBallNow(coin: real)
      requires 0.0 <= coin < 1.0
      modifies this`ball
      ensures ball == ResetBall(old(ball), width, height, coin)
    {
      ball := ball.(x := width / 2.0, y := height / 2.0);
      ball := ball.(speed := ServeSpeed);
      ball := ball.(velocityX := -ball.velocityX);
      ball := ball.(velocityY := 5.0 * (if coin > 0.5 then 1.0 else -1.0));
    }

    method Update(deflect: Deflect, coin: real)
      requires Valid() && 0.0 <= coin < 1.0
      modifies this`ball, this`user, this`player2
      ensures Snapshot() == Step(old(Snapshot()), keys, width, height, deflect, coin)
      ensures Valid()
    {
      ghost var t := Snapshot();
      StepShaped(t, keys, width, height, deflect, coin);
      ball := ball.(x := ball.x + ball.velocityX, y := ball.y + ball.velocityY);
      MovePlayer2();
      ClampPaddles();
      WallBounce();
      assert Snapshot() == Table(Bounce(Advance(t.ball), height), ClampPaddle(t.user, height),
                                 ClampPaddle(Steer(t.player2, keys), height));
      PaddleHit(deflect);
      Scoring(coin);
    }

    /** Lines 94-96. */
    method MovePlayer2()
      modifies this`player2
      ensures player2 == Steer(old(player2), keys)
    {
      if keys.a {
        player2 := player2.(y := player2.y - PaddleSpeed);
      }
      if keys.d {
        player2 := player2.(y := player2.y + PaddleSpeed);
      }
    }

    /** Lines 99-102. */
    method ClampPaddles()
      modifies this`user, this`player2
      ensures user == ClampPaddle(old(user), height) && player2 == ClampPaddle(old(player2), height)
    {
      if user.y < 0.0 {
        user := user.(y := 0.0);
      }
      if user.y + user.height > height {
        user := user.(y := height - user.height);
      }
      if player2.y < 0.0 {
        player2 := player2.(y := 0.0);
      }
      if player2.y + player2.height > height {
        player2 := player2.(y := height - player2.height);
      }
    }

    /** Lines 105-107. */
    method WallBounce()
      modifies this`ball
      ensures ball == Bounce(old(ball), height)
    {
      if ball.y - ball.radius < 0.0 || ball.y + ball.radius > height {
        ball := ball.(velocityY := -ball.velocityY);
      }
    }

    /** Lines 110-128. */
    method PaddleHit(deflect: Deflect)
      requires user.height > 0.0 && player2.height > 0.0
      modifies this`ball
      ensures ball == Rebound(old(ball), Target(old(ball), user, player2, width), width, deflect)
    {
      var player := if ball.x + ball.radius < width / 2.0 then user else player2;
      if Collision(ball, player) {
        var collidePoint := ball.y - (player.y + player.height / 2.0);
        collidePoint := collidePoint / (player.height / 2.0);
        var direction := if ball.x + ball.radius < width / 2.0 then 1.0 else -1.0;
        var v := deflect(collidePoint);
        ball := ball.(velocityX := direction * ball.speed * v.0, velocityY := ball.speed * v.1);
        ball := ball.(speed := ball.speed + SpeedUp);
      }
    }

    /** Lines 131-139. */
    method Scoring(coin: real)
      requires 0.0 <= coin < 1.0
      modifies this`ball, this`user, this`player2
      ensures Snapshot() == Score(old(Snapshot()), width, height, coin)
    {
      if ball.x - ball.radius < 0.0 {
        player2 := player2.(score := player2.score + 1);
        ResetBallNow(coin);
      } else if ball.x + ball.radius > width {
        user := user.(score := user.score + 1);
        ResetBallNow(coin);
      }
    }

    /** `mousemove`: the paddle's centre follows the pointer (clientY relative to the canvas top). */
    method MouseMove(clientY: real, rectTop: real)
      modifies this`user
      ensures user == old(user).(y := clientY - rectTop - old(user).height / 2.0)
    {
      user := user.(y := clientY - rectTop - user.height / 2.0);
    }

    method KeyDown(key: string)
      modifies this`keys
      ensures keys == PressKey(old(keys), key, true)
    {
      if key == "a" || key == "A" {
        keys := keys.(a := true);
      }
      if key == "d" || key == "D" {
        keys := keys.(d := true);
      }
    }

    method KeyUp(key: string)
      modifies this`keys
      ensures keys == PressKey(old(keys), key, false)
    {
      if key == "a" || key == "A" {
        keys := keys.(a := false);
      }
      if key == "d" || key == "D" {
        keys := keys.(d := false);
      }
    }

    /** The restart button's handler. */
    method RestartClick(coin: real)
      requires 0.0 <= coin < 1.0
      modifies this`ball, this`user, this`player2
      ensures Snapshot() == Restart(old(Snapshot()), width, height, coin)
    {
      user := user.(score := 0);
      player2 := player2.(score := 0);
      ResetBallNow(coin);
    }
  }
}
