/**
 * The falling-petal pool of js/sakura-tree.js: how `initFallingPetals` makes a
 * petal from twelve `Math.random()` values, and the position update, screen
 * wrap and colour choice `drawFallingPetals` applies to each petal per frame.
 */
module SakuraPetals {
  import opened SakuraGenerator
  import opened SakuraRender

  datatype Petal = Petal(
    x: real, y: real, size: real, speed: real, swing: real, swingSpeed: real,
    swingAmplitude: real, rotation: real, rotationSpeed: real, opacity: real,
    petalShape: bool, verticalDrift: real)

  /** How many `Math.random()` values one petal takes. */
  const DrawsPerPetal: nat := 12

  predicate Unit(r: real) { 0.0 <= r < 1.0 }

  /** The petal `initFallingPetals` pushes for the random values `r` on a `w` x `h` canvas, in field order. */
  function MakePetal(w: real, h: real, r: seq<real>): Petal
    requires |r| == DrawsPerPetal
  {
    Petal(r[0] * w, r[1] * h - h, 4.0 + r[2] * 5.0, 0.3 + r[3] * 0.5, r[4] * PI * 2.0,
          0.01 + r[5] * 0.015, 1.0 + r[6] * 2.0, r[7] * PI * 2.0, (r[8] - 0.5) * 0.06,
          0.5 + r[9] * 0.5, r[10] > 0.5, (r[11] - 0.5) * 0.2)
  }

  /** The pool `initFallingPetals` fills: petal `i` is made from the `i`-th run of twelve values. */
  function Pool(w: real, h: real, n: nat, rand: seq<real>): (ps: seq<Petal>)
    requires |rand| >= DrawsPerPetal * n
    ensures |ps| == n
  {
    seq(n, i requires 0 <= i < n => MakePetal(w, h, rand[DrawsPerPetal * i..DrawsPerPetal * i + DrawsPerPetal]))
  }

  /** The ranges a freshly made petal's motion parameters lie in. */
  ghost predicate Fresh(p: Petal) {
    4.0 <= p.size < 9.0 && 0.3 <= p.speed < 0.8 && 0.01 <= p.swingSpeed < 0.025 &&
    1.0 <= p.swingAmplitude < 3.0 && -0.03 <= p.rotationSpeed < 0.03 &&
    0.5 <= p.opacity < 1.0 && -0.1 <= p.verticalDrift < 0.1
  }

  lemma MakePetalFresh(w: real, h: real, r: seq<real>)
    requires |r| == DrawsPerPetal && forall i :: 0 <= i < |r| ==> Unit(r[i])
    ensures Fresh(MakePetal(w, h, r))
  {
    assert Unit(r[2]) && Unit(r[3]) && Unit(r[5]) && Unit(r[6]) && Unit(r[8]) && Unit(r[9]) && Unit(r[11]);
  }

  /** A fresh petal starts somewhere above a canvas of positive size, within its width. */
  lemma MakePetalAbove(w: real, h: real, r: seq<real>)
    requires |r| == DrawsPerPetal && forall i :: 0 <= i < |r| ==> Unit(r[i])
    requires w > 0.0 && h > 0.0
    ensures var p := MakePetal(w, h, r); 0.0 <= p.x < w && -h <= p.y < 0.0
  {
    Scaled(r[0], w);
    Scaled(r[1], h);
  }

  /** Every petal of a pool made from values in `[0, 1)` is fresh and starts above the canvas. */
  lemma PoolFresh(w: real, h: real, n: nat, rand: seq<real>)
    requires |rand| >= DrawsPerPetal * n && forall i :: 0 <= i < |rand| ==> Unit(rand[i])
    requires w > 0.0 && h > 0.0
    ensures forall p :: p in Pool(w, h, n, rand) ==> Fresh(p) && 0.0 <= p.x < w && -h <= p.y < 0.0
  {
    var ps := Pool(w, h, n, rand);
    forall p | p in ps
      ensures Fresh(p) && 0.0 <= p.x < w && -h <= p.y < 0.0
    {
      var i :| 0 <= i < n && ps[i] == p;
      var r := rand[DrawsPerPetal * i..DrawsPerPetal * i + DrawsPerPetal];
      MakePetalFresh(w, h, r);
      MakePetalAbove(w, h, r);
    }
  }

  lemma Scaled(r: real, w: real)
    requires Unit(r) && w > 0.0
    ensures 0.0 <= r * w < w
  {
    assert (1.0 - r) * w > 0.0;
  }

  /**
   * One frame of `drawFallingPetals` for one petal: fall and drift, sway by
   * `sin(swing)` and the wind; a petal below the bottom edge restarts at the
   * top at `rx * w` (`rx` is the `Math.random()` value it would take), and one
   * past either side edge reappears at the other.
   */
  function StepPetal(t: Trig, p: Petal, w: real, h: real, wind: real, rx: real): Petal {
    var y1 := p.y + p.speed + p.verticalDrift;
    var x1 := p.x + t.sin(p.swing) * p.swingAmplitude + wind * 0.5;
    var reset := y1 > h + 50.0;
    var y2 := if reset then -50.0 else y1;
    var x2 := if reset then rx * w else x1;
    var x3 := if x2 < -50.0 then w + 50.0 else x2;
    var x4 := if x3 > w + 50.0 then -50.0 else x3;
    p.(x := x4, y := y2, swing := p.swing + p.swingSpeed, rotation := p.rotation + p.rotationSpeed)
  }

  /** One frame of `drawFallingPetals` over the whole pool, `rx[i]` being petal `i`'s reset draw. */
  function StepAll(t: Trig, ps: seq<Petal>, w: real, h: real, wind: real, rx: seq<real>): (qs: seq<Petal>)
    requires |rx| == |ps|
    ensures |qs| == |ps|
  {
    seq(|ps|, i requires 0 <= i < |ps| => StepPetal(t, ps[i], w, h, wind, rx[i]))
  }

  /** After a frame every petal of the pool is inside the wrap band, and no petal was added or lost. */
  lemma StepAllBounds(t: Trig, ps: seq<Petal>, w: real, h: real, wind: real, rx: seq<real>)
    requires |rx| == |ps| && w >= 0.0 && h >= 0.0
    ensures var qs := StepAll(t, ps, w, h, wind, rx);
      |qs| == |ps| &&
      forall i :: 0 <= i < |qs| ==> -50.0 <= qs[i].x <= w + 50.0 && qs[i].y <= h + 50.0 && qs[i].size == ps[i].size
  {
    forall i | 0 <= i < |ps| ensures -50.0 <= StepAll(t, ps, w, h, wind, rx)[i].x <= w + 50.0 {
      StepPetalBounds(t, ps[i], w, h, wind, rx[i]);
    }
  }

  /**
   * After a step the petal is inside the band the wrap keeps it in, and it
   * changed nothing but its position, swing and rotation.
   */
  lemma StepPetalBounds(t: Trig, p: Petal, w: real, h: real, wind: real, rx: real)
    requires w >= 0.0 && h >= 0.0
    ensures var q := StepPetal(t, p, w, h, wind, rx);
      -50.0 <= q.x <= w + 50.0 && q.y <= h + 50.0 &&
      q.size == p.size && q.speed == p.speed && q.opacity == p.opacity &&
      q.petalShape == p.petalShape && q.swingAmplitude == p.swingAmplitude &&
      q.verticalDrift == p.verticalDrift && q.swingSpeed == p.swingSpeed &&
      q.rotationSpeed == p.rotationSpeed &&
      q.swing == p.swing + p.swingSpeed && q.rotation == p.rotation + p.rotationSpeed
  {
  }

  /** A petal that fell below the bottom edge restarts at the top, within the canvas width. */
  lemma StepPetalReset(t: Trig, p: Petal, w: real, h: real, wind: real, rx: real)
    requires w > 0.0 && Unit(rx)
    requires p.y + p.speed + p.verticalDrift > h + 50.0
    ensures var q := StepPetal(t, p, w, h, wind, rx); q.y == -50.0 && 0.0 <= q.x < w
  {
    Scaled(rx, w);
  }

  /** A petal that stays on screen moves by exactly its fall and its sway. */
  lemma StepPetalMoves(t: Trig, p: Petal, w: real, h: real, wind: real, rx: real)
    requires p.y + p.speed + p.verticalDrift <= h + 50.0
    requires -50.0 <= p.x + t.sin(p.swing) * p.swingAmplitude + wind * 0.5 <= w + 50.0
    ensures var q := StepPetal(t, p, w, h, wind, rx);
      q.y == p.y + p.speed + p.verticalDrift &&
      q.x == p.x + t.sin(p.swing) * p.swingAmplitude + wind * 0.5
  {
  }

  /** `Math.abs(Math.floor(x + y)) % colors.length` with the four colours of the palette. */
  function ColourIndex(x: real, y: real): (k: int)
    ensures 0 <= k < 4
  {
    var f := (x + y).Floor;
    (if f < 0 then -f else f) % 4
  }

  /** `getThemeColors`: every theme uses the same four pinks. */
  function ThemeColors(theme: string): (cs: seq<Rgb>)
    ensures |cs| == 4
    ensures forall i :: 0 <= i < 4 ==> cs[i].r == 255 && 195 <= cs[i].g <= 220 && 215 <= cs[i].b <= 235
  {
    [Rgb(255, 200, 220), Rgb(255, 210, 230), Rgb(255, 220, 235), Rgb(255, 195, 215)]
  }

  /** The palette, and so every petal's colour, does not depend on the theme. */
  lemma ThemeDoesNotMatter(a: string, b: string, x: real, y: real)
    ensures ThemeColors(a)[ColourIndex(x, y)] == ThemeColors(b)[ColourIndex(x, y)]
  {
  }
}
