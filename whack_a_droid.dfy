/**
 * Whack-a-Droid (games/whack-a-droid/script.js): droids pop up from random holes for half a second
 * to a second each, one after the other, during a 30-second round; clicking a droid scores a point.
 *
 * Holes are the indices 0 .. holeCount-1 of the page's `.hole` elements. Math.random() is a stream
 * `draw` of results in [0, 1) read from position k on; every operation that draws returns the
 * position after its last draw. The timers are modelled by the host calling the callbacks.
 */
module WhackADroid {
  const RoundTime: int := 30
  const MinPeep: int := 500
  const MaxPeep: int := 1000

  datatype Option<T> = None | Some(value: T)

  /** The state the one-second interval changes, plus whether the interval is set. */
  datatype Clock = Clock(timeLeft: int, timerOn: bool, timeUp: bool, startEnabled: bool, playAgain: bool)

  /** Every draw is a Math.random() result. */
  ghost predicate Draws(draw: nat -> real)
  {
    forall j: nat :: 0.0 <= draw(j) < 1.0
  }

  // ---------------------------------------------------------------- random choices (lines 13-25)

  /** Math.round(r * (max - min) + min): JavaScript rounds halves up, so it is floor(x + 0.5). */
  function RandomTime(min: int, max: int, r: real): (t: int)
    ensures 0.0 <= r < 1.0 && min <= max ==> min <= t <= max
  {
    var x := r * (max - min) as real + min as real;
    Spread(r, 0.0, (max - min) as real);
    (x + 0.5).Floor
  }

  /** A draw r in [0, 1) scaled onto [lo, hi]. */
  lemma Spread(r: real, lo: real, hi: real)
    ensures 0.0 <= r < 1.0 && lo <= hi ==> lo <= r * (hi - lo) + lo <= hi
  {
    if 0.0 <= r < 1.0 && lo <= hi {
      var b := 1.0 - r;
      assert b * (hi - lo) >= 0.0;
      assert (hi - lo) - r * (hi - lo) == b * (hi - lo);
    }
  }

  /** Math.floor(r * holes.length). */
  function HoleOf(r: real, holeCount: nat): (h: int)
    ensures 0.0 <= r < 1.0 && holeCount > 0 ==> 0 <= h < holeCount
  {
    Below(r, holeCount as real);
    (r * holeCount as real).Floor
  }

  lemma Below(r: real, a: real)
    ensures 0.0 <= r < 1.0 && a > 0.0 ==> 0.0 <= r * a < a
  {
    if 0.0 <= r < 1.0 && a > 0.0 {
      var b := 1.0 - r;
      assert b * a > 0.0;
      assert a - r * a == b * a;
    }
  }

  /** With one hole every draw gives the hole just used, so `randomHole` never returns; with two
      or more there is always a draw that gives another hole. */
  lemma HoleChoice(holeCount: nat, last: nat)
    requires holeCount > 0 && last < holeCount
    ensures holeCount == 1 ==> forall r :: 0.0 <= r < 1.0 ==> HoleOf(r, holeCount) == last
    ensures holeCount >= 2 ==> exists r :: 0.0 <= r < 1.0 && HoleOf(r, holeCount) != last
  {
    if holeCount >= 2 {
      if last == 0 {
        var r := 1.0 / holeCount as real;
        assert r * holeCount as real == 1.0;
        assert HoleOf(r, holeCount) == 1;
      } else {
        assert HoleOf(0.0, holeCount) == 0;
      }
    }
  }

  // ---------------------------------------------------------------- the countdown (lines 49-59)

  /** One call of the interval callback. */
  function Tick(c: Clock): Clock
  {
    var t := c.(timeLeft := c.timeLeft - 1);
    if t.timeLeft <= 0 then t.(timerOn := false, timeUp := true, startEnabled := true, playAgain := true)
    else t
  }

  /** `n` ticks while the interval stays set. */
  function Ticks(c: Clock, n: nat): Clock
    decreases n
  {
    if n == 0 || !c.timerOn then c else Ticks(Tick(c), n - 1)
  }

  /** The clock just after `startGame`. */
  function StartClock(c: Clock): Clock
  {
    c.(timeLeft := RoundTime, timeUp := false, timerOn := true, startEnabled := false)
  }

  /** The interval runs exactly while the clock is above 0, and the round is over once it stops. */
  predicate Counting(c: Clock)
  {
    0 <= c.timeLeft <= RoundTime && (c.timerOn ==> c.timeLeft >= 1 && !c.timeUp && !c.startEnabled)
  }

  lemma TickCounts(c: Clock)
    requires Counting(c) && c.timerOn
    ensures Counting(Tick(c)) && Tick(c).timeLeft == c.timeLeft - 1
    ensures Tick(c).timeUp <==> c.timeLeft == 1
    ensures Tick(c).timeUp ==> !Tick(c).timerOn && Tick(c).startEnabled && Tick(c).playAgain
  {
  }

  /** Each tick takes a second off; the tick that reaches 0 stops the interval and ends the round. */
  lemma {:induction false} Countdown(c: Clock, n: nat)
    requires Counting(c) && c.timerOn && n <= c.timeLeft
    ensures n < c.timeLeft ==> Ticks(c, n) == c.(timeLeft := c.timeLeft - n)
    ensures n == c.timeLeft ==> Ticks(c, n) == c.(timeLeft := 0, timerOn := false, timeUp := true,
                                                 startEnabled := true, playAgain := true)
    decreases n
  {
    if n > 0 {
      var t := Tick(c);
      assert Ticks(c, n) == Ticks(t, n - 1);
      if c.timeLeft > 1 {
        assert t == c.(timeLeft := c.timeLeft - 1);
        Countdown(t, n - 1);
        assert t.(timeLeft := t.timeLeft - (n - 1)) == c.(timeLeft := c.timeLeft - n);
      } else {
        assert Ticks(t, 0) == t;
      }
    }
  }

  /** A round lasts exactly 30 ticks. */
  lemma ThirtySeconds(c: Clock)
    ensures !Ticks(StartClock(c), RoundTime - 1).timeUp
    ensures Ticks(StartClock(c), RoundTime).timeUp
  {
    Countdown(StartClock(c), RoundTime - 1);
    Countdown(StartClock(c), RoundTime);
  }

  // ---------------------------------------------------------------- the page

  /** A scheduled `peep` timeout: how long the droid stays up, and where. */
  datatype Peeked = Peeked(time: int, hole: nat)

  class Game {
    const holeCount: nat
    /** The holes with the class `up`. */
    var up: seq<bool>
    var lastHole: Option<nat>
    var timeUp: bool
    var score: int
    var timeLeft: int
    var timerOn: bool
    var startEnabled: bool
    /** The start button reads "Play Again". */
    var playAgain: bool

    function Timer(): Clock
      reads this
    {
      Clock(timeLeft, timerOn, timeUp, startEnabled, playAgain)
    }

    predicate Valid()
      reads this
    {
      |up| == holeCount && Counting(Timer())
    }

    /** The page before the first start: no hole up, no hole used yet. */
    constructor (holeCount: nat)
      ensures this.holeCount == holeCount && up == seq(holeCount, _ => false) && lastHole == None
      ensures !timeUp && score == 0 && timeLeft == RoundTime && !timerOn && startEnabled && !playAgain
      ensures Valid()
    {
      this.holeCount := holeCount;
      up := seq(holeCount, _ => false);
      lastHole := None;
      timeUp, score, timeLeft := false, 0, RoundTime;
      timerOn, startEnabled, playAgain := false, true, false;
    }

    /** `randomHole`: draw a hole from position k, and draw again while it is the last one used.
        It returns once a draw gives another hole; `stop` is a position where one does, which
        exists for a fair stream exactly when there are two holes or more (`HoleChoice`). */
    method RandomHole(draw: nat -> real, k: nat, ghost stop: nat) returns (hole: nat, next: nat)
      requires holeCount > 0 && Draws(draw)
      requires k <= stop && Some(HoleOf(draw(stop), holeCount)) != lastHole
      modifies this`lastHole
      ensures k < next <= stop + 1
      ensures hole < holeCount && hole == HoleOf(draw(next - 1), holeCount)
      ensures Some(hole) != old(lastHole) && lastHole == Some(hole)
      ensures forall j :: k <= j < next - 1 ==> Some(HoleOf(draw(j), holeCount)) == old(lastHole)
      decreases stop - k
    {
      var idx := HoleOf(draw(k), holeCount);
      if Some(idx) == lastHole {
        hole, next := RandomHole(draw, k + 1, stop);
        return;
      }
      lastHole := Some(idx);
      hole, next := idx, k + 1;
    }

    /** `peep`: a time from the draw at k, a new hole from the draws after it, and that hole goes up. */
    method Peep(draw: nat -> real, k: nat, ghost stop: nat) returns (p: Peeked, next: nat)
      requires holeCount > 0 && |up| == holeCount && Draws(draw)
      requires k < stop && Some(HoleOf(draw(stop), holeCount)) != lastHole
      modifies this`lastHole, this`up
      ensures MinPeep <= p.time <= MaxPeep && p.time == RandomTime(MinPeep, MaxPeep, draw(k))
      ensures k + 1 < next <= stop + 1 && p.hole == HoleOf(draw(next - 1), holeCount) < holeCount
      ensures Some(p.hole) != old(lastHole) && lastHole == Some(p.hole)
      ensures forall j :: k + 1 <= j < next - 1 ==> Some(HoleOf(draw(j), holeCount)) == old(lastHole)
      ensures up == old(up)[p.hole := true]
    {
      var time := RandomTime(MinPeep, MaxPeep, draw(k));
      var hole;
      hole, next := RandomHole(draw, k + 1, stop);
      up := up[hole := true];
      p := Peeked(time, hole);
    }

    /** The `peep` timeout: the droid goes down, and another peep follows only while the round is on. */
    method PeepDone(hole: nat, draw: nat -> real, k: nat, ghost stop: nat) returns (again: Option<Peeked>, next: nat)
      requires hole < |up| == holeCount && Draws(draw)
      requires !timeUp ==> k < stop && Some(HoleOf(draw(stop), holeCount)) != lastHole
      modifies this`lastHole, this`up
      ensures again.Some? <==> !timeUp
      ensures timeUp ==> next == k && up == old(up)[hole := false] && lastHole == old(lastHole)
      ensures again.Some? ==>
        MinPeep <= again.value.time <= MaxPeep && again.value.time == RandomTime(MinPeep, MaxPeep, draw(k))
        && k + 1 < next <= stop + 1 && again.value.hole == HoleOf(draw(next - 1), holeCount)
        && Some(again.value.hole) != old(lastHole) && lastHole == Some(again.value.hole)
        && up == old(up)[hole := false][again.value.hole := true]
    {
      up := up[hole := false];
      if !timeUp {
        var p;
        p, next := Peep(draw, k, stop);
        again := Some(p);
      } else {
        again, next := None, k;
      }
    }

    /** `startGame`: a fresh score and clock, the button disabled, the first peep, the interval set. */
    method StartGame(draw: nat -> real, k: nat, ghost stop: nat) returns (p: Peeked, next: nat)
      requires holeCount > 0 && |up| == holeCount && Draws(draw)
      requires k < stop && Some(HoleOf(draw(stop), holeCount)) != lastHole
      modifies this`lastHole, this`up, this`timeUp, this`score, this`timeLeft, this`timerOn, this`startEnabled
      ensures score == 0 && Timer() == StartClock(old(Timer())) && Valid()
      ensures MinPeep <= p.time <= MaxPeep && p.time == RandomTime(MinPeep, MaxPeep, draw(k))
      ensures k + 1 < next <= stop + 1 && p.hole == HoleOf(draw(next - 1), holeCount)
      ensures Some(p.hole) != old(lastHole) && lastHole == Some(p.hole)
      ensures up == old(up)[p.hole := true]
    {
      timeUp := false;
      score := 0;
      timeLeft := RoundTime;
      startEnabled := false;
      p, next := Peep(draw, k, stop);
      timerOn := true;
    }

    /** The interval callback; it runs only while the interval is set. */
    method TimerTick()
      requires timerOn
      modifies this`timeLeft, this`timerOn, this`timeUp, this`startEnabled, this`playAgain
      ensures Timer() == Tick(old(Timer()))
      ensures old(Valid()) ==> Valid()
    {
      timeLeft := timeLeft - 1;
      if timeLeft <= 0 {
        timerOn := false;
        timeUp := true;
        startEnabled := true;
        playAgain := true;
      }
    }

    /** `bonk` on the droid of a hole: a trusted click scores one point and sends the droid down,
        whether or not it was up; a synthetic one changes nothing. */
    method Bonk(trusted: bool, hole: nat)
      requires hole < |up|
      modifies this`score, this`up
      ensures trusted ==> score == old(score) + 1 && up == old(up)[hole := false]
      ensures !trusted ==> score == old(score) && up == old(up)
    {
      if !trusted {
        return;
      }
      score := score + 1;
      up := up[hole := false];
    }
  }
}
