/**
 * The tree generator of js/sakura-tree.js as pure functions of the generator
 * state: `drawTrunk`, `growBranch` (with its flower loop and its fan-out
 * loop) and `generateTree`. The `SakuraTree` class proves its methods equal
 * to these functions; the lemmas below state what shape the output has.
 *
 * `Math.cos` and `Math.sin` are the two functions of a `Trig` parameter, so
 * every property proved here holds whatever they compute: the model covers
 * the tree's structure and control flow, not its geometry.
 */
module SakuraGenerator {
  import opened SakuraRandom

  /** `Math.PI` */
  const PI: real := 3.141592653589793

  /** The trigonometric functions the generator calls. */
  datatype Trig = Trig(cos: real -> real, sin: real -> real)

  /** A straight stroke of the tree; depth 0 is the trunk. */
  datatype Branch = Branch(x1: real, y1: real, x2: real, y2: real, width: real, depth: int)

  /** A flower sprite; `layer` 0 is background, 1 middle, 2 foreground. */
  datatype Cluster = Cluster(
    x: real, y: real, size: real, isSingle: bool, rotation: real,
    patternIndex: int, opacity: real, density: int, layer: int)

  /** What generation reads and writes: `randomSeed`, `branches`, `flowerClusters`. */
  datatype Gen = Gen(seed: nat, branches: seq<Branch>, clusters: seq<Cluster>)

  /** The state after one `seededRandom()` call (its value is `Draw(g.seed)`). */
  function Roll(g: Gen): Gen {
    g.(seed := NextSeed(g.seed))
  }

  /** The end of a segment of `length` leaving `(x, y)` at `angle`. */
  function Endpoint(t: Trig, x: real, y: real, angle: real, length: real): (real, real) {
    (x + t.cos(angle) * length, y + t.sin(angle) * length)
  }

  function Pow(b: real, k: nat): real {
    if k == 0 then 1.0 else b * Pow(b, k - 1)
  }

  // ---------------------------------------------------------------- trunk

  const TrunkSteps: nat := 12

  /** The trunk piece from fraction `t1` to fraction `t2` of the way, its width taken at `t1`. */
  function TrunkPiece(x1: real, y1: real, x2: real, y2: real, w1: real, w2: real, t1: real, t2: real): Branch {
    Branch(x1 + (x2 - x1) * t1, y1 + (y2 - y1) * t1,
           x1 + (x2 - x1) * t2, y1 + (y2 - y1) * t2,
           w1 + (w2 - w1) * t1, 0)
  }

  /** Segment `i` of `drawTrunk(x1, y1, x2, y2, width1, width2)`: from `i / 12` to `(i + 1) / 12` of the way. */
  function TrunkSegment(x1: real, y1: real, x2: real, y2: real, w1: real, w2: real, i: nat): Branch {
    TrunkPiece(x1, y1, x2, y2, w1, w2, i as real / 12.0, (i + 1) as real / 12.0)
  }

  /** Everything `drawTrunk` pushes, in order. */
  function Trunk(x1: real, y1: real, x2: real, y2: real, w1: real, w2: real): seq<Branch> {
    seq(TrunkSteps, i requires 0 <= i => TrunkSegment(x1, y1, x2, y2, w1, w2, i))
  }

  // -------------------------------------------------------------- flowers

  /** The layer a cluster gets from its `layerDepth` draw. */
  function Layer(layerDepth: real): int {
    if layerDepth > 0.7 then 2 else if layerDepth < 0.3 then 0 else 1
  }

  /** How many flowers a flowering branch at `depth` carries. */
  function FlowerCount(depth: int): nat {
    if depth >= 7 then 4 else if depth >= 6 then 3 else 2
  }

  /**
   * The cluster the object literal of the flower loop builds for flower `f`
   * of `num` on the segment `(x, y)`-`(endX, endY)`, from its draws in
   * evaluation order: position along the segment `r1`, offset ratio `r2`,
   * offset angle `r3`, layer `r4`, size `r5`, rotation `r6`, pattern `r7` and
   * opacity `r8` (not drawn, and ignored, for a foreground flower).
   */
  function MakeCluster(t: Trig, x: real, y: real, endX: real, endY: real, angle: real, length: real,
                       f: nat, num: nat, r1: real, r2: real, r3: real, r4: real,
                       r5: real, r6: real, r7: real, r8: real): Cluster
    requires num > 0
  {
    var along := (f as real + 0.5) / num as real + (r1 - 0.5) * 0.2;
    var fx := x + (endX - x) * along;
    var fy := y + (endY - y) * along;
    var offsetRatio := 0.08 + r2 * 0.12;
    var offsetAngle := angle + PI / 2.0 + (r3 - 0.5) * PI * 0.6;
    var offsetDist := length * offsetRatio;
    var foreground := r4 > 0.7;
    var background := r4 < 0.3;
    var size := if foreground then 10.0 + r5 * 6.0
                else if background then 6.0 + r5 * 4.0
                else 8.0 + r5 * 4.0;
    var opacity := if foreground then 0.9
                   else if background then 0.4 + r8 * 0.2
                   else 0.65 + r8 * 0.2;
    Cluster(fx + t.cos(offsetAngle) * offsetDist, fy + t.sin(offsetAngle) * offsetDist,
            size, true, r6 * PI * 2.0, (r7 * 4.0).Floor, opacity, 0, Layer(r4))
  }

  /**
   * Flower `f` of `num`: seven draws for a foreground flower, eight otherwise,
   * and the cluster they make appended.
   */
  function Flower(t: Trig, g: Gen, x: real, y: real, endX: real, endY: real,
                  angle: real, length: real, f: nat, num: nat): Gen
    requires num > 0
  {
    var s0 := g.seed;
    var s1 := NextSeed(s0);
    var s2 := NextSeed(s1);
    var s3 := NextSeed(s2);
    var s4 := NextSeed(s3);
    var s5 := NextSeed(s4);
    var s6 := NextSeed(s5);
    var s7 := NextSeed(s6);
    var foreground := Draw(s3) > 0.7;
    var c := MakeCluster(t, x, y, endX, endY, angle, length, f, num,
                         Draw(s0), Draw(s1), Draw(s2), Draw(s3), Draw(s4), Draw(s5), Draw(s6),
                         if foreground then 0.0 else Draw(s7));
    g.(seed := if foreground then s7 else NextSeed(s7), clusters := g.clusters + [c])
  }

  /** The flower loop `for (f = i; f < num; f++)`. */
  function Flowers(t: Trig, g: Gen, x: real, y: real, endX: real, endY: real,
                   angle: real, length: real, f: nat, num: nat): Gen
    decreases num - f
  {
    if f >= num then g
    else Flowers(t, Flower(t, g, x, y, endX, endY, angle, length, f, num),
                 x, y, endX, endY, angle, length, f + 1, num)
  }

  /** The flowering step of `growBranch`: from depth 4 on, 85% of branches flower. */
  function Bloom(t: Trig, g: Gen, x: real, y: real, endX: real, endY: real,
                 angle: real, length: real, depth: int): Gen
  {
    if depth >= 4 then
      if Draw(g.seed) < 0.85 then
        Flowers(t, Roll(g), x, y, endX, endY, angle, length, 0, FlowerCount(depth))
      else Roll(g)
    else g
  }

  // ------------------------------------------------------------- branches

  /** How many children a branch at `depth` spawns, `r` being the draw made when `2 <= depth < 5`. */
  function BranchCount(depth: int, r: real): nat {
    if depth < 2 then 2 else if depth < 5 then (if r > 0.5 then 2 else 3) else 2
  }

  /** `growBranch(x, y, angle, length, width, depth)` */
  function Grow(t: Trig, g: Gen, x: real, y: real, angle: real, length: real, width: real, depth: int): Gen
    decreases 10 - depth, 1, 0, 0
  {
    if depth > 9 || length < 6.0 then g
    else
      var end := Endpoint(t, x, y, angle, length);
      var g1 := g.(branches := g.branches + [Branch(x, y, end.0, end.1, width, depth)]);
      var g2 := Bloom(t, g1, x, y, end.0, end.1, angle, length, depth);
      if depth < 8 then
        var n := BranchCount(depth, Draw(g2.seed));
        var g3 := if 2 <= depth < 5 then Roll(g2) else g2;
        Children(t, g3, end.0, end.1, angle, length, width, depth, 0, n)
      else g2
  }

  /** The fan-out loop of `growBranch`, from child `i` of `n` on. */
  function Children(t: Trig, g: Gen, endX: real, endY: real, angle: real, length: real,
                    width: real, depth: int, i: nat, n: nat): Gen
    requires depth < 8
    decreases 10 - depth, 0, n - i, 1
  {
    if i >= n then g
    else Children(t, Child(t, g, endX, endY, angle, length, width, depth, i, n,
                           Draw(g.seed), Draw(NextSeed(g.seed))),
                  endX, endY, angle, length, width, depth, i + 1, n)
  }

  /**
   * Child `i` of `n`, where `r1` and `r2` are the two draws that fix its angle
   * offset and its length: it grows one level deeper with 70% of the width.
   */
  function Child(t: Trig, g: Gen, endX: real, endY: real, angle: real, length: real,
                 width: real, depth: int, i: nat, n: nat, r1: real, r2: real): Gen
    requires depth < 8
    decreases 10 - depth, 0, n - i, 0
  {
    Grow(t, Roll(Roll(g)), endX, endY, angle + Offset(r1, i, n), ChildLength(length, r2),
         width * 0.7, depth + 1)
  }

  /** `length * (0.65 + r * 0.15)`: a child's length for the draw `r`. */
  function ChildLength(length: real, r: real): real {
    length * (0.65 + r * 0.15)
  }

  /** A child is between 65% and 80% as long as its parent. */
  lemma ChildLengthRange(length: real, r: real)
    requires 0.0 <= r < 1.0 && length > 0.0
    ensures 0.65 * length <= ChildLength(length, r) < 0.80 * length
  {
    FractionBounds(length, 0.65 + r * 0.15, 0.65, 0.80);
  }

  /** `lo <= f < hi` scales to `lo * x <= f * x < hi * x` for a positive `x`. */
  lemma FractionBounds(x: real, f: real, lo: real, hi: real)
    requires x > 0.0 && lo <= f < hi
    ensures lo * x <= x * f < hi * x
  {
    assert x * f - lo * x == (f - lo) * x;
    assert hi * x - x * f == (hi - f) * x;
  }

  /**
   * The angle offset of child `i` of `n` for the draw `r`: two children
   * leave on opposite sides, between 0.4 and 0.7 radians out; of three, the
   * middle one keeps the parent's direction and the outer two leave on
   * opposite sides, between 0.45 and 0.65 radians out.
   */
  function Offset(r: real, i: nat, n: nat): real {
    if n == 2 then (if i == 0 then -1.0 else 1.0) * (0.4 + r * 0.3)
    else (i as real - 1.0) * (0.45 + r * 0.2)
  }

  /** Where each child of a fan-out points, relative to its parent. */
  lemma OffsetRange(r: real, i: nat, n: nat)
    requires 0.0 <= r < 1.0
    ensures var o := Offset(r, i, n);
      (n == 2 ==> (i == 0 ==> -0.7 < o <= -0.4) && (i != 0 ==> 0.4 <= o < 0.7)) &&
      (n != 2 ==> (i == 0 ==> -0.65 < o <= -0.45) && (i == 1 ==> o == 0.0) && (i == 2 ==> 0.45 <= o < 0.65))
  {
  }

  // ----------------------------------------------------------------- tree

  /*
   * `resize` always sets the design size to 800 x 600, so the tree is always
   * generated with its trunk foot at (400, 600) and a trunk 0.35 * 600 = 210
   * high; the functions below have those numbers written in.
   */

  /** The main-branch loop of `generateTree`, from branch `i` of `num` on. */
  function MainBranches(t: Trig, g: Gen, i: nat, num: int): Gen
    decreases num - i
  {
    if i >= num then g
    else
      var g1 := MainBranch(t, g, i, Draw(g.seed), Draw(NextSeed(g.seed)), Draw(NextSeed(NextSeed(g.seed))));
      MainBranches(t, g1, i + 1, num)
  }

  /**
   * Main branch `i`, where `r1`, `r2`, `r3` are its three draws (height on the
   * trunk, angle, length): it leaves the trunk at `heightRatio` of its height,
   * even-numbered ones leaning left.
   */
  function MainBranch(t: Trig, g: Gen, i: nat, r1: real, r2: real, r3: real): Gen {
    Grow(t, Roll(Roll(Roll(g))), TrunkX(MainHeight(i, r1)), TrunkY(MainHeight(i, r1)),
         MainAngle(i, r2), MainLength(r3), 35.0, 1)
  }

  /** `heightRatio` of main branch `i` for the draw `r`. */
  function MainHeight(i: nat, r: real): real {
    0.3 + i as real * 0.15 + r * 0.1
  }

  /** The direction of main branch `i` for the draw `r`: up, tilted left for even `i`. */
  function MainAngle(i: nat, r: real): real {
    -PI / 2.0 + (if i % 2 == 0 then -(0.4 + r * 0.3) else 0.4 + r * 0.3)
  }

  /** The length of a main branch for the draw `r`. */
  function MainLength(r: real): real {
    600.0 * (0.26 + r * 0.1)
  }

  /** The point of the trunk at `heightRatio` `h` of its height. */
  function TrunkX(h: real): real { 400.0 - 8.0 * h }
  function TrunkY(h: real): real { 600.0 - 210.0 * h }

  /** The two small upper branches of `generateTree`, from branch `i` on. */
  function SmallBranches(t: Trig, g: Gen, i: nat): Gen
    decreases 2 - i
  {
    if i >= 2 then g
    else SmallBranches(t, SmallBranch(t, g, i, Draw(g.seed)), i + 1)
  }

  /** Small branch `i`, where `r` is its one draw (angle); even-numbered ones lean right. */
  function SmallBranch(t: Trig, g: Gen, i: nat, r: real): Gen {
    Grow(t, Roll(g), TrunkX(0.6 + i as real * 0.15), TrunkY(0.6 + i as real * 0.15),
         SmallAngle(i, r), 600.0 * 0.18, 28.0, 1)
  }

  /** The direction of small branch `i` for the draw `r`: up, tilted right for even `i`. */
  function SmallAngle(i: nat, r: real): real {
    -PI / 2.0 + (if i % 2 == 0 then 0.25 + r * 0.2 else -(0.25 + r * 0.2))
  }

  /** `3 + Math.floor(seededRandom() * 2)` */
  function MainCount(s: nat): int {
    3 + (Draw(s) * 2.0).Floor
  }

  /** The trunk `generateTree` draws: from (400, 600) up to (392, 390), 70 wide at the foot and 45 at the top. */
  function TreeTrunk(): seq<Branch> {
    Trunk(400.0, 600.0, 392.0, 390.0, 70.0, 45.0)
  }

  /**
   * `generateTree()` run with the random state `seed`: the trunk, the leader
   * straight up from the trunk top, 3 or 4 main branches, the 2 small ones.
   */
  function GenerateTree(t: Trig, seed: nat): Gen {
    var g1 := Grow(t, Gen(seed, TreeTrunk(), []), 392.0, 390.0, -PI / 2.0, 600.0 * 0.15, 32.0, 1);
    SmallBranches(t, MainBranches(t, Roll(g1), 0, MainCount(g1.seed)), 0)
  }
}
