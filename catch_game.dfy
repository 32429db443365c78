/**
 * The petal-catching mini-game of js/games.js (`SakuraCatchGame`): a basket
 * that follows the pointer, petals that fall one frame at a time, ten points
 * per caught petal and one life per missed one.
 *
 * Canvas drawing is left out; `Math.random()` values are parameters in
 * `[0, 1)`, each animation frame is one `GameLoop` call and each spawn timer
 * one `SpawnPetal` call.
 */
module CatchGame {

  /** The canvas is 500 x 600; the basket is 80 wide and its centre stays this far from either edge. */
  const BasketMin: real := 40.0
  const BasketMax: real := 460.0
  const BasketHalf: real := 40.0

  /** A falling petal of the game. */
  datatype Petal = Petal(x: real, y: real, speed: real, size: real, rotation: real, rotationSpeed: real)

  /** The pointer events the canvas listens to, with the pointer's `clientX` (of the first touch). */
  datatype PointerEvent = MouseMove(clientX: real) | TouchMove(clientX: real)

  /** `Math.max(40, Math.min(460, x))` */
  function Clamp(x: real): (r: real)
    ensures BasketMin <= r <= BasketMax
    ensures BasketMin <= x <= BasketMax ==> r == x
    ensures x < BasketMin ==> r == BasketMin
    ensures x > BasketMax ==> r == BasketMax
  {
    var m := if 460.0 <= x then 460.0 else x;
    if 40.0 >= m then 40.0 else m
  }

  /** The petal `spawnPetal` pushes for its five `Math.random()` values, in call order. */
  function NewPetal(r0: real, r1: real, r2: real, r3: real, r4: real): (p: Petal)
    requires 0.0 <= r0 < 1.0 && 0.0 <= r1 < 1.0 && 0.0 <= r2 < 1.0 && 0.0 <= r4 < 1.0
    ensures p.y == -20.0 && 25.0 <= p.x < 475.0
    ensures 2.0 <= p.speed < 4.0 && 15.0 <= p.size < 25.0 && -0.05 <= p.rotationSpeed < 0.05
  {
    Petal(r0 * 450.0 + 25.0, -20.0, 2.0 + r1 * 2.0, 15.0 + r2 * 10.0,
          r3 * 3.141592653589793 * 2.0, (r4 - 0.5) * 0.1)
  }

  /** A frame's move of one petal: down by its speed, turned by its rotation speed. */
  function Fall(p: Petal): Petal {
    p.(y := p.y + p.speed, rotation := p.rotation + p.rotationSpeed)
  }

  /** The collision test: inside the basket's band and within 40 of its centre. */
  predicate Caught(p: Petal, basketX: real) {
    520.0 < p.y < 560.0 && basketX - BasketHalf < p.x < basketX + BasketHalf
  }

  /** Not caught, and below the bottom of the canvas. */
  predicate Missed(p: Petal, basketX: real) {
    !Caught(p, basketX) && p.y > 600.0
  }

  /** `s` without its element `i`: `array.splice(i, 1)`. */
  function Remove(s: seq<Petal>, i: nat): seq<Petal>
    requires i < |s|
  {
    s[..i] + s[i + 1..]
  }

  /** The game's state as one value. `rangeError` records that `updateLives` threw. */
  datatype Game = Game(score: int, lives: int, gameOver: bool, rangeError: bool, petals: seq<Petal>)

  /**
   * The loop of `gameLoop` from index `i` down to 0: each petal falls, then is
   * caught, missed or kept. A miss that takes the lives below zero makes
   * `'❤️'.repeat(lives)` throw a RangeError, which ends the frame on the spot
   * with that petal moved but not removed and the lower ones untouched.
   */
  function Sweep(g: Game, basketX: real, i: int): (r: Game)
    requires -1 <= i < |g.petals|
    decreases i + 1
  {
    if i < 0 then g
    else
      var p := Fall(g.petals[i]);
      var ps := g.petals[i := p];
      if Caught(p, basketX) then
        Sweep(g.(score := g.score + 10, petals := Remove(ps, i)), basketX, i - 1)
      else if p.y > 600.0 then
        if g.lives - 1 < 0 then g.(lives := g.lives - 1, rangeError := true, petals := ps)
        else Sweep(g.(lives := g.lives - 1, petals := Remove(ps, i), gameOver := g.gameOver || g.lives - 1 <= 0),
                   basketX, i - 1)
      else Sweep(g.(petals := ps), basketX, i - 1)
  }

  // ------------------------------------------- an independent account of a frame

  /** The petals of `ps` that, once moved, are neither caught nor missed, moved and in order. */
  function Survivors(ps: seq<Petal>, basketX: real): seq<Petal> {
    if ps == [] then []
    else
      var p := Fall(ps[|ps| - 1]);
      Survivors(ps[..|ps| - 1], basketX) + (if !Caught(p, basketX) && !Missed(p, basketX) then [p] else [])
  }

  /** How many of `ps` are caught once moved. */
  function CountCaught(ps: seq<Petal>, basketX: real): nat {
    if ps == [] then 0
    else CountCaught(ps[..|ps| - 1], basketX) + (if Caught(Fall(ps[|ps| - 1]), basketX) then 1 else 0)
  }

  /** How many of `ps` are missed once moved. */
  function CountMissed(ps: seq<Petal>, basketX: real): nat {
    if ps == [] then 0
    else CountMissed(ps[..|ps| - 1], basketX) + (if Missed(Fall(ps[|ps| - 1]), basketX) then 1 else 0)
  }

  lemma {:induction false} SurvivorsCount(ps: seq<Petal>, basketX: real)
    ensures |Survivors(ps, basketX)| + CountCaught(ps, basketX) + CountMissed(ps, basketX) == |ps|
  {
    if ps != [] {
      SurvivorsCount(ps[..|ps| - 1], basketX);
    }
  }

  /** Lives at zero or below always come with the game over. */
  ghost predicate LivesOk(g: Game) {
    g.lives >= 0 && (g.lives <= 0 ==> g.gameOver) && !g.rangeError
  }

  /**
   * The frame loop from index `i` down, stated without the loop: every petal
   * of `g.petals[..i + 1]` is moved, the caught and missed ones are dropped,
   * the score goes up 10 per catch and the lives down 1 per miss; the frame
   * throws exactly when there are more misses than lives, and then the lives
   * stand at -1 and the game is already over.
   */
  lemma {:induction false} SweepSpec(g: Game, basketX: real, i: int)
    requires -1 <= i < |g.petals| && LivesOk(g)
    ensures Framed(g, basketX, i, Sweep(g, basketX, i))
    decreases i + 1
  {
    if i < 0 {
      assert g.petals[..0] == [] && g.petals[0..] == g.petals;
      return;
    }
    var p := Fall(g.petals[i]);
    var ps := g.petals[i := p];
    if Caught(p, basketX) {
      var g1 := g.(score := g.score + 10, petals := Remove(ps, i));
      SweepSpec(g1, basketX, i - 1);
      CaughtStep(g, basketX, i);
    } else if p.y > 600.0 {
      if g.lives - 1 >= 0 {
        var g1 := g.(lives := g.lives - 1, petals := Remove(ps, i), gameOver := g.gameOver || g.lives - 1 <= 0);
        SweepSpec(g1, basketX, i - 1);
      }
      MissedStep(g, basketX, i);
    } else {
      var g1 := g.(petals := ps);
      SweepSpec(g1, basketX, i - 1);
      KeptStep(g, basketX, i);
    }
  }

  lemma CaughtStep(g: Game, basketX: real, i: nat)
    requires i < |g.petals| && LivesOk(g) && Caught(Fall(g.petals[i]), basketX)
    requires var g1 := g.(score := g.score + 10, petals := Remove(g.petals[i := Fall(g.petals[i])], i));
      Framed(g1, basketX, i - 1, Sweep(g1, basketX, i - 1))
    ensures Framed(g, basketX, i, Sweep(g, basketX, i))
  {
    var p := Fall(g.petals[i]);
    LastOfPrefix(g.petals, i, basketX);
    RemoveSplit(g.petals, i, p);
  }

  lemma MissedStep(g: Game, basketX: real, i: nat)
    requires i < |g.petals| && LivesOk(g)
    requires var p := Fall(g.petals[i]); !Caught(p, basketX) && p.y > 600.0
    requires g.lives - 1 >= 0 ==>
      var g1 := g.(lives := g.lives - 1, petals := Remove(g.petals[i := Fall(g.petals[i])], i),
                   gameOver := g.gameOver || g.lives - 1 <= 0);
      Framed(g1, basketX, i - 1, Sweep(g1, basketX, i - 1))
    ensures Framed(g, basketX, i, Sweep(g, basketX, i))
  {
    var p := Fall(g.petals[i]);
    LastOfPrefix(g.petals, i, basketX);
    RemoveSplit(g.petals, i, p);
  }

  lemma KeptStep(g: Game, basketX: real, i: nat)
    requires i < |g.petals| && LivesOk(g)
    requires var p := Fall(g.petals[i]); !Caught(p, basketX) && !(p.y > 600.0)
    requires var g1 := g.(petals := g.petals[i := Fall(g.petals[i])]);
      Framed(g1, basketX, i - 1, Sweep(g1, basketX, i - 1))
    ensures Framed(g, basketX, i, Sweep(g, basketX, i))
  {
    var p := Fall(g.petals[i]);
    LastOfPrefix(g.petals, i, basketX);
    KeepSplit(g.petals, i, p);
  }

  /**
   * What a frame from index `i` down does to `g`, stated without the loop:
   * every petal of `g.petals[..i + 1]` is moved, the caught and missed ones
   * are dropped, the score goes up 10 per catch and the lives down 1 per
   * miss; the frame throws exactly when there are more misses than lives, and
   * then the lives stand at -1 and the game is already over.
   */
  ghost predicate Framed(g: Game, basketX: real, i: int, r: Game)
    requires -1 <= i < |g.petals|
  {
    var pre, suf := g.petals[..i + 1], g.petals[i + 1..];
    (r.rangeError <==> CountMissed(pre, basketX) > g.lives) &&
    (r.rangeError ==> r.lives == -1 && r.gameOver && r.score % 10 == g.score % 10 && r.score >= g.score) &&
    (!r.rangeError ==>
       r.petals == Survivors(pre, basketX) + suf &&
       r.score == g.score + 10 * CountCaught(pre, basketX) &&
       r.lives == g.lives - CountMissed(pre, basketX) &&
       r.gameOver == (g.gameOver || (CountMissed(pre, basketX) > 0 && r.lives <= 0)))
  }

  /** The counts over the first `i + 1` petals are those over the first `i` and petal `i`. */
  lemma LastOfPrefix(ps: seq<Petal>, i: nat, basketX: real)
    requires i < |ps|
    ensures var pre, p := ps[..i + 1], Fall(ps[i]);
      CountCaught(pre, basketX) == CountCaught(ps[..i], basketX) + (if Caught(p, basketX) then 1 else 0) &&
      CountMissed(pre, basketX) == CountMissed(ps[..i], basketX) + (if Missed(p, basketX) then 1 else 0) &&
      Survivors(pre, basketX) ==
        Survivors(ps[..i], basketX) + (if !Caught(p, basketX) && !Missed(p, basketX) then [p] else [])
  {
    var pre := ps[..i + 1];
    assert pre[..|pre| - 1] == ps[..i];
  }

  /** Removing the moved petal `i`: what lies below and above it. */
  lemma RemoveSplit(ps: seq<Petal>, i: nat, p: Petal)
    requires i < |ps|
    ensures Remove(ps[i := p], i)[..i] == ps[..i] && Remove(ps[i := p], i)[i..] == ps[i + 1..]
  {
  }

  /** Keeping the moved petal `i`: what lies below it, and it followed by the rest. */
  lemma KeepSplit(ps: seq<Petal>, i: nat, p: Petal)
    requires i < |ps|
    ensures ps[i := p][..i] == ps[..i] && ps[i := p][i..] == [p] + ps[i + 1..]
  {
  }

  /** A frame that throws no error loses exactly the caught and the missed petals. */
  lemma FrameLosesCaughtAndMissed(g: Game, basketX: real)
    requires LivesOk(g)
    ensures var r := Sweep(g, basketX, |g.petals| - 1);
      !r.rangeError ==>
        |r.petals| == |g.petals| - CountCaught(g.petals, basketX) - CountMissed(g.petals, basketX)
  {
    SweepSpec(g, basketX, |g.petals| - 1);
    assert g.petals[..|g.petals|] == g.petals && g.petals[|g.petals|..] == [];
    SurvivorsCount(g.petals, basketX);
  }

  /** Two petals about to miss with one life left: the second miss throws, the lives end at -1. */
  lemma SecondMissThrows(basketX: real)
    ensures var p := Petal(100.0, 599.0, 3.0, 20.0, 0.0, 0.0);
      var r := Sweep(Game(0, 1, false, false, [p, p]), basketX, 1);
      r.rangeError && r.lives == -1 && r.gameOver && |r.petals| == 1
  {
  }

  /** A frame started while the game runs leaves a state that `Valid` accepts. */
  lemma FrameKeepsValid(g: Game, basketX: real)
    requires !g.gameOver && !g.rangeError && g.score >= 0 && g.score % 10 == 0 && 1 <= g.lives <= 3
    ensures var r := Sweep(g, basketX, |g.petals| - 1);
      r.score >= 0 && r.score % 10 == 0 && -1 <= r.lives <= 3 &&
      (r.lives <= 0 ==> r.gameOver) && (r.rangeError <==> r.lives < 0)
  {
    SweepSpec(g, basketX, |g.petals| - 1);
  }

  // ------------------------------------------------------------- the game

  class SakuraCatchGame {
    var score: int
    var lives: int
    var gameOver: bool
    var basketX: real
    var petals: seq<Petal>
    /** The last frame stopped with the RangeError of `updateLives`; no frame is scheduled after it. */
    var rangeError: bool

    function State(): Game
      reads this
    {
      Game(score, lives, gameOver, rangeError, petals)
    }

    /**
     * Score a non-negative multiple of 10, the basket inside its range, the
     * lives between -1 and 3, at 0 or below only once the game is over, and
     * at -1 only after the RangeError.
     */
    ghost predicate Valid()
      reads this
    {
      score >= 0 && score % 10 == 0 && BasketMin <= basketX <= BasketMax &&
      -1 <= lives <= 3 && (lives <= 0 ==> gameOver) && (rangeError <==> lives < 0)
    }

    /** `new SakuraCatchGame(container)`: `init()` and `startGame()`, i.e. one empty frame and the first petal. */
    constructor (r0: real, r1: real, r2: real, r3: real, r4: real)
      requires 0.0 <= r0 < 1.0 && 0.0 <= r1 < 1.0 && 0.0 <= r2 < 1.0 && 0.0 <= r4 < 1.0
      ensures Valid()
      ensures score == 0 && lives == 3 && !gameOver && basketX == 250.0
      ensures petals == [NewPetal(r0, r1, r2, r3, r4)]
    {
      score := 0;
      lives := 3;
      gameOver := false;
      basketX := 250.0;
      petals := [];
      rangeError := false;
      new;
      GameLoop();
      SpawnPetal(r0, r1, r2, r3, r4);
    }

    /** `handleMove(e)`: the basket follows the pointer, clamped to `[40, 460]`. */
    method HandleMove(e: PointerEvent, rectLeft: real)
      requires Valid()
      modifies this`basketX
      ensures Valid() && basketX == Clamp(e.clientX - rectLeft)
    {
      var x := e.clientX - rectLeft;
      var m := if 460.0 <= x then 460.0 else x;
      basketX := if 40.0 >= m then 40.0 else m;
    }

    /** `spawnPetal()`: one new petal at the top, unless the game is over. */
    method SpawnPetal(r0: real, r1: real, r2: real, r3: real, r4: real)
      requires 0.0 <= r0 < 1.0 && 0.0 <= r1 < 1.0 && 0.0 <= r2 < 1.0 && 0.0 <= r4 < 1.0
      modifies this`petals
      ensures petals == if gameOver then old(petals) else old(petals) + [NewPetal(r0, r1, r2, r3, r4)]
    {
      if gameOver {
        return;
      }
      petals := petals + [NewPetal(r0, r1, r2, r3, r4)];
    }

    /** `updateLives()`: `'❤️'.repeat(lives)` throws for a negative count; `ok` is false then. */
    method UpdateLives() returns (ok: bool)
      ensures ok == (lives >= 0)
    {
      ok := lives >= 0;
    }

    /** `endGame()`: the game is over; what it paints is left out. */
    method EndGame()
      modifies this`gameOver
      ensures gameOver
    {
      gameOver := true;
    }

    /** `gameLoop()`: nothing once the game is over, otherwise one frame over every petal, last first. */
    method GameLoop()
      requires Valid()
      modifies this`score, this`lives, this`gameOver, this`petals, this`rangeError
      ensures Valid()
      ensures old(gameOver) ==> State() == old(State())
      ensures !old(gameOver) ==> State() == Sweep(old(State()), basketX, |old(petals)| - 1)
    {
      if gameOver {
        return;
      }
      ghost var g0 := State();
      var i := |petals| - 1;
      while i >= 0
        invariant -1 <= i < |petals|
        invariant !rangeError
        invariant Sweep(State(), basketX, i) == Sweep(g0, basketX, |g0.petals| - 1)
        decreases i + 1
      {
        ghost var before := State();
        var petal := Fall(petals[i]);
        petals := petals[i := petal];
        if petal.y > 520.0 && petal.y < 560.0 && petal.x > basketX - 40.0 && petal.x < basketX + 40.0 {
          score := score + 10;
          petals := petals[..i] + petals[i + 1..];
        } else if petal.y > 600.0 {
          lives := lives - 1;
          var ok := UpdateLives();
          if !ok {
            rangeError := true;
            assert State() == Sweep(before, basketX, i);
            FrameKeepsValid(g0, basketX);
            return;
          }
          petals := petals[..i] + petals[i + 1..];
          if lives <= 0 {
            EndGame();
          }
        }
        i := i - 1;
      }
      FrameKeepsValid(g0, basketX);
    }
  }
}
