/**
 * Bayam (games/bayam/script.js): tap to grow a spinach plant for 30 seconds. A one-second timer
 * counts down, every tap grows the plant by 2, and at the end the plant's height is reported with a
 * message that depends on how much it grew. The plant drawn each frame is a seed, or a stem with
 * leaves every 15 pixels.
 */
module Bayam {
  const RoundTime: int := 30
  const MaxHeight: int := 800
  const GrowPerClick: int := 2
  const LeafSpacing: int := 15

  const Amazing: string := "Amazing Harvest!"
  const Thirsty: string := "Needs more water..."
  const TimesUp: string := "Time's Up!"

  /** A leaf of the drawn plant: its height on the stem and its side (1 right, -1 left). */
  datatype Leaf = Leaf(height: int, side: int)

  /** The script's globals and the page state its functions set. */
  datatype Plant = Plant(timeLeft: int, growth: int, running: bool, clickPower: int, leaves: seq<Leaf>,
                         timerOn: bool, overShown: bool, message: string, heightCm: int)

  // ---------------------------------------------------------------- round rules (lines 21-72)

  /** The reported height: floor(growth * 0.5) (line 61). */
  function HeightCm(growth: int): (h: int)
    ensures h as real <= growth as real * 0.5 < h as real + 1.0
  {
    growth / 2
  }

  /** Lines 62-69: "Time's Up!" unless one of the two overrides applies. */
  function EndMessage(growth: int): (m: string)
    ensures m == Amazing <==> growth > 200
    ensures m == Thirsty <==> growth < 50
    ensures m == TimesUp <==> 50 <= growth <= 200
  {
    if growth > 200 then Amazing else if growth < 50 then Thirsty else TimesUp
  }

  /** `init`. The end message is left as it was; the game-over screen is hidden. */
  function Init(s: Plant): Plant
  {
    s.(timeLeft := RoundTime, growth := 0, running := true, leaves := [], clickPower := 1,
       timerOn := true, overShown := false)
  }

  /** `endGame`. */
  function Ended(s: Plant): Plant
  {
    s.(running := false, timerOn := false, heightCm := HeightCm(s.growth),
       message := EndMessage(s.growth), overShown := true)
  }

  /** `tick`. */
  function Ticked(s: Plant): Plant
  {
    if !s.running then s
    else
      var t := s.(timeLeft := s.timeLeft - 1);
      if t.timeLeft <= 0 then Ended(t) else t
  }

  /** `grow`. */
  function Grown(s: Plant): Plant
  {
    if !s.running then s else s.(growth := s.growth + GrowPerClick)
  }

  /** The states a round passes through: the clock is within the round, the timer runs exactly
      while the game does, the plant grows in steps of 2, and a finished game shows its result. */
  predicate Sound(s: Plant)
  {
    0 <= s.timeLeft <= RoundTime && (s.running ==> s.timeLeft >= 1) && s.timerOn == s.running
    && s.growth >= 0 && s.growth % 2 == 0
    && (!s.running ==> s.overShown && s.message == EndMessage(s.growth) && s.heightCm == HeightCm(s.growth))
  }

  /** `init` starts a sound round, and ticks and taps keep it sound: in particular the clock never
      goes below 0. */
  lemma SoundRounds(s: Plant)
    ensures Sound(Init(s))
    ensures Sound(s) ==> Sound(Ticked(s)) && Sound(Grown(s))
  {
  }

  /** Once the game is over nothing but `init` changes anything. */
  lemma OverIsFrozen(s: Plant)
    requires !s.running
    ensures Ticked(s) == s && Grown(s) == s
  {
  }

  /** `n` ticks of a running round. */
  function Ticks(s: Plant, n: nat): Plant
    decreases n
  {
    if n == 0 then s else Ticks(Ticked(s), n - 1)
  }

  /** Without taps the clock runs down one second per tick and the round stays on, and the tick
      that reaches 0 ends it with the result for the growth so far. */
  lemma {:induction false} Countdown(s: Plant, n: nat)
    requires s.running && 1 <= s.timeLeft && n <= s.timeLeft
    ensures n < s.timeLeft ==> Ticks(s, n) == s.(timeLeft := s.timeLeft - n)
    ensures n == s.timeLeft ==> Ticks(s, n) == Ended(s.(timeLeft := 0))
    decreases n
  {
    if n > 0 {
      var t := s.(timeLeft := s.timeLeft - 1);
      assert Ticks(s, n) == Ticks(Ticked(s), n - 1);
      if t.timeLeft <= 0 {
        assert Ticked(s) == Ended(t) && t == s.(timeLeft := 0);
        assert Ticks(Ended(t), 0) == Ended(t);
      } else {
        assert Ticked(s) == t;
        Countdown(t, n - 1);
        assert t.(timeLeft := t.timeLeft - (n - 1)) == s.(timeLeft := s.timeLeft - n);
        assert t.(timeLeft := 0) == s.(timeLeft := 0);
      }
    }
  }

  /** A round from `init` lasts exactly 30 ticks. */
  lemma ThirtySeconds(s: Plant)
    ensures Ticks(Init(s), RoundTime - 1).running
    ensures !Ticks(Init(s), RoundTime).running
  {
    Countdown(Init(s), RoundTime - 1);
    Countdown(Init(s), RoundTime);
  }

  // ---------------------------------------------------------------- the plant (lines 74-129)

  function Min(a: int, b: int): int { if a < b then a else b }

  /** What `drawPlant` draws. */
  datatype Drawing = Seed | Stem(height: int, width: real, leaves: seq<Leaf>)

  function StemHeight(growth: int): int
  {
    Min(growth, MaxHeight)
  }

  /** The stem gets thicker with growth, up to 30 (lines 88-89). */
  function StemWidth(growth: int): (w: real)
    ensures w <= 30.0
    ensures growth >= 0 ==> w >= 10.0
    ensures w < 30.0 <==> growth < 400
  {
    var w := 10.0 + growth as real / 20.0;
    if w > 30.0 then 30.0 else w
  }

  /** The leaf drawn for index i: 15 pixels apart, right side first. */
  function LeafAt(i: nat): Leaf
  {
    Leaf((i + 1) * LeafSpacing, if i % 2 == 0 then 1 else -1)
  }

  /** Reference: the plant for a positive growth has the leaves 0 .. n-1 for the count n of
      `LeafCount`. */
  function Sketch(growth: int): Drawing
  {
    if growth <= 0 then Seed
    else Stem(StemHeight(growth), StemWidth(growth), seq(LeafCount(growth), i requires 0 <= i => LeafAt(i)))
  }

  /** floor(growth / 15) leaves, but none above the top of the stem. */
  function LeafCount(growth: int): nat
  {
    if growth <= 0 then 0 else Min(growth / LeafSpacing, StemHeight(growth) / LeafSpacing)
  }

  /** The leaves sit on the stem from the bottom up, 15 pixels apart, alternating sides; there are
      floor(growth / 15) of them up to 53, the most an 800-pixel stem holds. */
  lemma LeafRules(growth: int)
    requires growth > 0
    ensures Sketch(growth).Stem?
    ensures var ls := Sketch(growth).leaves;
      |ls| == Min(growth / 15, 53) && |ls| == LeafCount(growth)
      && (forall i :: 0 <= i < |ls| ==> ls[i].height == (i + 1) * 15 <= Sketch(growth).height)
      && (forall i :: 0 <= i < |ls| ==> ls[i].side == if i % 2 == 0 then 1 else -1)
      && (forall i :: 0 <= i < |ls| - 1 ==> ls[i + 1].height == ls[i].height + 15 && ls[i + 1].side == -ls[i].side)
  {
  }

  /** A growth of 0 or less (only reachable before the first tap) draws only the seed. */
  lemma SeedOnly(growth: int)
    ensures Sketch(growth) == Seed <==> growth <= 0
  {
  }

  // ---------------------------------------------------------------- the page

  class Game {
    var timeLeft: int
    var growth: int
    var gameRunning: bool
    var clickPower: int
    var leaves: seq<Leaf>
    /** The one-second interval is set. */
    var timerOn: bool
    /** The game-over screen is visible. */
    var overShown: bool
    var message: string
    var heightCm: int

    function Snapshot(): Plant
      reads this
    {
      Plant(timeLeft, growth, gameRunning, clickPower, leaves, timerOn, overShown, message, heightCm)
    }

    /** The script's top level: the globals, then `init`. */
    constructor ()
      ensures Snapshot() == Init(Plant(30, 0, true, 1, [], false, false, "", 0))
      ensures Sound(Snapshot())
    {
      timeLeft, growth, gameRunning, clickPower, leaves := 30, 0, true, 1, [];
      timerOn, overShown, message, heightCm := false, false, "", 0;
      new;
      Start();
    }

    /** `init`, also run by the restart button. */
    method Start()
      modifies this`timeLeft, this`growth, this`gameRunning, this`leaves, this`clickPower, this`timerOn, this`overShown
      ensures Snapshot() == Init(old(Snapshot()))
      ensures Sound(Snapshot())
    {
      timeLeft := RoundTime;
      growth := 0;
      gameRunning := true;
      leaves := [];
      clickPower := 1;
      overShown := false;
      timerOn := true;
    }

    method EndGame()
      modifies this`gameRunning, this`timerOn, this`heightCm, this`message, this`overShown
      ensures Snapshot() == Ended(old(Snapshot()))
    {
      gameRunning := false;
      timerOn := false;
      heightCm := growth / 2;
      message := TimesUp;
      if growth > 200 {
        message := Amazing;
      } else if growth < 50 {
        message := Thirsty;
      }
      overShown := true;
    }

    method Tick()
      modifies this`timeLeft, this`gameRunning, this`timerOn, this`heightCm, this`message, this`overShown
      ensures Snapshot() == Ticked(old(Snapshot()))
      ensures old(Sound(Snapshot())) ==> Sound(Snapshot())
    {
      if !gameRunning {
        return;
      }
      timeLeft := timeLeft - 1;
      if timeLeft <= 0 {
        EndGame();
      }
    }

    /** `grow`: a mouse press, a touch, or the Space or Enter key while the game runs. */
    method Grow()
      modifies this`growth
      ensures Snapshot() == Grown(old(Snapshot()))
      ensures old(gameRunning) ==> growth == old(growth) + 2
      ensures !old(gameRunning) ==> growth == old(growth)
      ensures old(Sound(Snapshot())) ==> Sound(Snapshot())
    {
      if !gameRunning {
        return;
      }
      growth := growth + GrowPerClick;
    }

    /** The keydown handler: Space and Enter (by key code) grow the plant. */
    method KeyDown(code: string)
      modifies this`growth
      ensures code == "Space" || code == "Enter" ==> Snapshot() == Grown(old(Snapshot()))
      ensures code != "Space" && code != "Enter" ==> growth == old(growth)
    {
      if code == "Space" || code == "Enter" {
        Grow();
      }
    }

    /** The state half of `drawPlant`: the stem's height and width, and the leaves from the loop
        that stops at the first leaf above the stem. */
    method DrawPlant() returns (d: Drawing)
      ensures d == Sketch(growth)
    {
      if growth <= 0 {
        return Seed;
      }
      var stemHeight := growth;
      if stemHeight > MaxHeight {
        stemHeight := MaxHeight;
      }
      var lineWidth := 10.0 + growth as real / 20.0;
      if lineWidth > 30.0 {
        lineWidth := 30.0;
      }
      var leafCount := growth / 15;
      var drawn: seq<Leaf> := [];
      var i := 0;
      while i < leafCount
        invariant 0 <= i <= leafCount && |drawn| == i
        invariant forall k :: 0 <= k < i ==> drawn[k] == LeafAt(k)
        invariant i * 15 <= stemHeight
      {
        var h := (i + 1) * 15;
        if h > stemHeight {
          break;
        }
        var side := if i % 2 == 0 then 1 else -1;
        drawn := drawn + [Leaf(h, side)];
        i := i + 1;
      }
      LeafStop(growth, i);
      d := Stem(stemHeight, lineWidth, drawn);
    }
  }

  /** The loop of lines 109-122 stops exactly after `LeafCount` leaves: the last leaf drawn fits on
      the stem, and the loop stops either at floor(growth / 15) or at the first leaf that does not fit. */
  lemma LeafStop(growth: int, i: nat)
    requires growth > 0 && i <= growth / 15
    requires i * 15 <= StemHeight(growth)
    requires i == growth / 15 || (i + 1) * 15 > StemHeight(growth)
    ensures i == LeafCount(growth)
  {
    var sh := StemHeight(growth);
    if i < growth / 15 {
      assert i * 15 <= sh < (i + 1) * 15;
      assert i == sh / 15;
    } else {
      assert sh / 15 >= i;
    }
  }
}
