/**
 * The `SakuraTree` object of js/sakura-tree.js: its seeded generator, the
 * generation methods that fill `branches` and `flowerClusters`, the cached
 * rendering, the falling-petal pool and the handlers that rebuild the tree on
 * a resize or a theme change.
 *
 * Each generation method is proved equal to the function of the same name in
 * `SakuraGenerator`, so the shape lemmas of `SakuraShape` apply to the fields.
 * The class invariant records the point of the fixed seed: the constructor
 * sets it to `TreeSeed` for good, and whatever resizes and theme changes
 * happen, the tree is always the generator's tree of that seed.
 *
 * The canvas is represented by its size, `Math.random()` by sequences of
 * values in `[0, 1)` passed in, and the frame loop by one `Animate` call per
 * frame.
 */
module SakuraCanvas {
  import opened JsValues
  import opened SakuraRandom
  import opened SakuraGenerator
  import opened SakuraRender
  import opened SakuraPetals
  import PerformanceConfig

  /** `getCurrentTheme()`: the `data-theme` attribute, or `cherry` when it is missing or empty. */
  function CurrentTheme(attr: Option<string>): (r: string)
    ensures r != []
    ensures attr.Some? && attr.value != [] ==> r == attr.value
    ensures attr.None? ==> r == "cherry"
  {
    StringOr(attr, "cherry")
  }

  /** The number of petals `initFallingPetals` makes: the configured count, or 30 without a configuration. */
  function PetalCount(perf: Option<PerformanceConfig.Config>): nat {
    if perf.Some? then perf.value.fallingPetalsCount else 30
  }

  /** Whether `animate` sways the tree: always without a configuration, otherwise as configured. */
  function EnableSway(perf: Option<PerformanceConfig.Config>): bool {
    perf.None? || perf.value.enableTreeSway
  }

  /**
   * With the configuration `apply()` stores, a low-end device gets 15 petals
   * and a still tree, any other device 30 petals and a swaying tree; with no
   * configuration at all the tree sways over 30 petals.
   */
  lemma PerformanceTiers(nav: PerformanceConfig.Navigator, rootClasses: set<string>)
    ensures var perf := Some(PerformanceConfig.Apply(nav, rootClasses).0);
      PetalCount(perf) == (if PerformanceConfig.IsLowEnd(nav) then 15 else 30) &&
      EnableSway(perf) == !PerformanceConfig.IsLowEnd(nav)
    ensures PetalCount(None) == 30 && EnableSway(None)
  {
  }

  /** One pass of the fan-out loop grows child `i` after its two draws. */
  lemma ChildIsGrow(t: Trig, g: Gen, endX: real, endY: real, angle: real, length: real,
                    width: real, depth: int, i: nat, n: nat, r1: real, r2: real,
                    g2: Gen, childAngle: real, childLength: real, g3: Gen)
    requires depth < 8
    requires g2 == Roll(Roll(g))
    requires childAngle == angle + Offset(r1, i, n) && childLength == ChildLength(length, r2)
    requires g3 == Grow(t, g2, endX, endY, childAngle, childLength, width * 0.7, depth + 1)
    ensures Child(t, g, endX, endY, angle, length, width, depth, i, n, r1, r2) == g3
  {
  }

  /** The steps of `growBranch` past its guard, for the end point and the state after flowering. */
  lemma GrowSteps(t: Trig, g: Gen, x: real, y: real, angle: real, length: real, width: real, depth: int,
                  endX: real, endY: real, g2: Gen)
    requires !(depth > 9 || length < 6.0)
    requires (endX, endY) == Endpoint(t, x, y, angle, length)
    requires g2 == Bloom(t, g.(branches := g.branches + [Branch(x, y, endX, endY, width, depth)]),
                         x, y, endX, endY, angle, length, depth)
    ensures Grow(t, g, x, y, angle, length, width, depth) ==
      if depth < 8 then
        Children(t, if 2 <= depth < 5 then Roll(g2) else g2, endX, endY, angle, length, width, depth,
                 0, BranchCount(depth, Draw(g2.seed)))
      else g2
  {
  }

  /** The fan-out loop from child `i` is child `i` followed by the loop from `i + 1`. */
  lemma ChildrenStep(t: Trig, g: Gen, endX: real, endY: real, angle: real, length: real,
                     width: real, depth: int, i: nat, n: nat)
    requires depth < 8 && i < n
    ensures Children(t, g, endX, endY, angle, length, width, depth, i, n) ==
            Children(t, Child(t, g, endX, endY, angle, length, width, depth, i, n, Draw(g.seed), Draw(NextSeed(g.seed))),
                     endX, endY, angle, length, width, depth, i + 1, n)
  {
  }

  /** The main-branch loop from `i` is branch `i` followed by the loop from `i + 1`. */
  lemma MainBranchesStep(t: Trig, g: Gen, i: nat, num: int)
    requires i < num
    ensures var s := g.seed;
      MainBranches(t, g, i, num) ==
      MainBranches(t, MainBranch(t, g, i, Draw(s), Draw(NextSeed(s)), Draw(NextSeed(NextSeed(s)))), i + 1, num)
  {
  }

  /** The small-branch loop from `i` is branch `i` followed by the loop from `i + 1`. */
  lemma SmallBranchesStep(t: Trig, g: Gen, i: nat)
    requires i < 2
    ensures SmallBranches(t, g, i) == SmallBranches(t, SmallBranch(t, g, i, Draw(g.seed)), i + 1)
  {
  }

  /** Small branch `i` grows from the trunk point at `0.6 + 0.15 i` of its height. */
  lemma SmallBranchIsGrow(t: Trig, g: Gen, i: nat, r: real)
    ensures SmallBranch(t, g, i, r) ==
      Grow(t, Roll(g), TrunkX(0.6 + i as real * 0.15), TrunkY(0.6 + i as real * 0.15), SmallAngle(i, r), 108.0, 28.0, 1)
  {
  }

  class SakuraTree {
    /** `Math.cos` and `Math.sin`. */
    const t: Trig
    /** Whether `getElementById` found the canvas; without one the constructor stops at once. */
    const hasCanvas: bool
    /** `this.seed`: the fixed seed every generation starts from, 12345 for every tree. */
    const seed: nat

    var randomSeed: nat
    var branches: seq<Branch>
    var flowerClusters: seq<Cluster>
    /** The offscreen canvas, as the list of what was painted on it. */
    var cache: seq<Op>
    var currentTheme: string

    /** `canvas.width` and `canvas.height`, taken from the element's size. */
    var width: real
    var height: real
    var scaleX: real
    var scaleY: real
    /**
     * The design frame. `resize` assigns these the same values every time, so
     * they are constants here: 800 x 600 with the trunk foot at (400, 600).
     */
    const baseWidth: real := 800.0
    const baseHeight: real := 600.0
    const centerX: real := baseWidth / 2.0
    const baseY: real := baseHeight * 1.0

    var windTime: real
    var windStrength: real
    var fallingPetals: array<Petal>

    /** What generation reads and writes. */
    function State(): Gen
      reads this`randomSeed, this`branches, this`flowerClusters
    {
      Gen(randomSeed, branches, flowerClusters)
    }

    /** The scale `resize` sets: the design frame stretched over the canvas. */
    ghost predicate Scaled()
      reads this`scaleX, this`scaleY, this`width, this`height
    {
      scaleX == width / baseWidth && scaleY == height / baseHeight && width >= 0.0 && height >= 0.0
    }

    /**
     * The object once construction has run: laid out, holding the tree of the
     * fixed seed and its rendering.
     */
    ghost predicate Valid()
      reads this
    {
      hasCanvas ==> Scaled() && currentTheme != [] && Grown()
    }

    /** `bs` and `cs` are the tree of the fixed seed (bound by the quantifier so that the generator is only expanded where a proof names it). */
    ghost predicate IsSeedTree(bs: seq<Branch>, cs: seq<Cluster>) {
      forall s :: s == seed ==>
        var tree := SakuraGenerator.GenerateTree(t, s);
        bs == tree.branches && cs == tree.clusters
    }

    /** The fixed seed grows one tree only. */
    lemma SeedTreeUnique(bs: seq<Branch>, cs: seq<Cluster>, bs2: seq<Branch>, cs2: seq<Cluster>)
      requires IsSeedTree(bs, cs) && IsSeedTree(bs2, cs2)
      ensures bs == bs2 && cs == cs2
    {
      var tree := SakuraGenerator.GenerateTree(t, seed);
    }

    /** A valid object with a canvas holds, in its fields, the tree the generator grows from its seed. */
    lemma HoldsSeedTree()
      requires Valid() && hasCanvas
      ensures var tree := SakuraGenerator.GenerateTree(t, seed);
        branches == tree.branches && flowerClusters == tree.clusters
    {
      var tree := SakuraGenerator.GenerateTree(t, seed);
    }

    /** The tree of the fixed seed, and the offscreen canvas holding its rendering at the current scale. */
    ghost predicate Grown()
      reads this`branches, this`flowerClusters, this`cache, this`scaleX, this`scaleY
    {
      IsSeedTree(branches, flowerClusters) && cache == Raster(branches, flowerClusters, scaleX, scaleY)
    }

    /**
     * `new SakuraTree(canvasId)`: with a canvas, it is sized, the tree grown
     * and cached, the petal pool filled, and the first `animate()` frame run
     * at once; `rx` holds that frame's values for petals that restart.
     */
    constructor (trig: Trig, canvas: Option<(real, real)>, dataTheme: Option<string>,
                 perf: Option<PerformanceConfig.Config>, rand: seq<real>, rx: seq<real>)
      requires canvas.Some? ==> canvas.value.0 >= 0.0 && canvas.value.1 >= 0.0
      requires |rand| >= DrawsPerPetal * PetalCount(perf)
      requires canvas.Some? ==> |rx| == PetalCount(perf)
      ensures Valid() && hasCanvas == canvas.Some? && t == trig && seed == TreeSeed
      ensures hasCanvas ==>
        currentTheme == CurrentTheme(dataTheme) && width == canvas.value.0 && height == canvas.value.1 &&
        windTime == 0.01 && windStrength == t.sin(0.01) * 0.8 + t.sin(0.01 * 2.3) * 0.4 &&
        fallingPetals[..] == StepAll(t, Pool(width, height, PetalCount(perf), rand), width, height, windStrength, rx)
    {
      t := trig;
      hasCanvas := canvas.Some?;
      seed := TreeSeed;
      randomSeed := TreeSeed;
      currentTheme := CurrentTheme(dataTheme);
      fallingPetals := new Petal[0];
      branches := [];
      flowerClusters := [];
      windTime := 0.0;
      windStrength := 0.0;
      new;
      if canvas.Some? {
        Mount(canvas.value.0, canvas.value.1, perf, rand, rx);
      }
    }

    /**
     * The part of the constructor that runs once the canvas is found: size,
     * tree, cache, petal pool, and the first frame.
     */
    method Mount(w: real, h: real, perf: Option<PerformanceConfig.Config>, rand: seq<real>, rx: seq<real>)
      requires w >= 0.0 && h >= 0.0
      requires |rand| >= DrawsPerPetal * PetalCount(perf) && |rx| == PetalCount(perf)
      modifies this`width, this`height, this`scaleX, this`scaleY, this`windTime, this`windStrength,
               this`randomSeed, this`branches, this`flowerClusters, this`cache, this`fallingPetals
      ensures Scaled() && Grown() && width == w && height == h
      ensures windTime == old(windTime) + 0.01
      ensures windStrength == t.sin(windTime) * 0.8 + t.sin(windTime * 2.3) * 0.4
      ensures fresh(fallingPetals)
      ensures fallingPetals[..] == StepAll(t, Pool(w, h, PetalCount(perf), rand), w, h, windStrength, rx)
    {
      Resize(w, h);
      Rebuild();
      assert Scaled() && Grown();
      InitFallingPetals(perf, rand);
      var sway, colours := Animate(perf, rx);
      assert Scaled() && Grown();
    }

    /** `seededRandom()`: one step of the generator, returning the new state over the modulus. */
    method SeededRandom() returns (r: real)
      modifies this`randomSeed
      ensures randomSeed == NextSeed(old(randomSeed)) && r == Draw(old(randomSeed))
    {
      randomSeed := (randomSeed * 9301 + 49297) % 233280;
      r := randomSeed as real / 233280.0;
    }

    /** `resize()`: the canvas takes the element's size; the tree keeps its 800 x 600 design frame. */
    method Resize(w: real, h: real)
      requires w >= 0.0 && h >= 0.0
      modifies this`width, this`height, this`scaleX, this`scaleY
      ensures Scaled() && width == w && height == h
    {
      width, height := w, h;
      scaleX := width / baseWidth;
      scaleY := height / baseHeight;
    }

    /** `drawTrunk(...)`: appends the twelve tapering segments. */
    method DrawTrunk(x1: real, y1: real, x2: real, y2: real, w1: real, w2: real)
      modifies this`branches
      ensures branches == old(branches) + Trunk(x1, y1, x2, y2, w1, w2)
    {
      var steps := 12;
      ghost var trunk := Trunk(x1, y1, x2, y2, w1, w2);
      for i := 0 to steps
        invariant branches == old(branches) + trunk[..i]
      {
        // `i / steps` and `(i + 1) / steps`, with the step count written in
        var t1 := i as real / 12.0;
        var t2 := (i + 1) as real / 12.0;
        var sx := x1 + (x2 - x1) * t1;
        var sy := y1 + (y2 - y1) * t1;
        var ex := x1 + (x2 - x1) * t2;
        var ey := y1 + (y2 - y1) * t2;
        var w := w1 + (w2 - w1) * t1;
        assert trunk[i] == TrunkPiece(x1, y1, x2, y2, w1, w2, t1, t2) == Branch(sx, sy, ex, ey, w, 0);
        branches := branches + [Branch(sx, sy, ex, ey, w, 0)];
        assert trunk[..i + 1] == trunk[..i] + [trunk[i]];
      }
      assert trunk[..steps] == trunk;
    }

    /** One pass of the flower loop: the draws of flower `f` of `num` and the cluster they make. */
    method PushFlower(x: real, y: real, endX: real, endY: real, angle: real, length: real, f: nat, num: nat)
      requires num > 0
      modifies this`randomSeed, this`flowerClusters
      ensures State() == Flower(t, old(State()), x, y, endX, endY, angle, length, f, num)
    {
      var along := SeededRandom();
      var ratio := SeededRandom();
      var turn := SeededRandom();
      var layerDepth := SeededRandom();
      var size := SeededRandom();
      var rotation := SeededRandom();
      var pattern := SeededRandom();
      var opacity := 0.0;
      if !(layerDepth > 0.7) {
        opacity := SeededRandom();
      }
      flowerClusters := flowerClusters + [MakeCluster(t, x, y, endX, endY, angle, length, f, num,
                                                      along, ratio, turn, layerDepth, size, rotation, pattern, opacity)];
    }

    /**
     * `growBranch(x, y, angle, length, width, depth)`: the segment, then its
     * flowers, then its children. The flower loop and the fan-out loop are the
     * methods `Blossom` and `FanOut`.
     */
    method GrowBranch(x: real, y: real, angle: real, length: real, width: real, depth: int)
      modifies this`randomSeed, this`branches, this`flowerClusters
      ensures State() == Grow(t, old(State()), x, y, angle, length, width, depth)
      decreases 10 - depth, 2
    {
      if depth > 9 || length < 6.0 {
        return;
      }
      ghost var g := State();
      var endX := x + t.cos(angle) * length;
      var endY := y + t.sin(angle) * length;
      assert (endX, endY) == Endpoint(t, x, y, angle, length);
      branches := branches + [Branch(x, y, endX, endY, width, depth)];
      Blossom(x, y, endX, endY, angle, length, depth);
      ghost var g2 := State();
      if depth < 8 {
        FanOut(endX, endY, angle, length, width, depth);
      }
      GrowSteps(t, g, x, y, angle, length, width, depth, endX, endY, g2);
    }

    /** The flowering part of `growBranch`: from depth 4 on, a draw below 0.85 sets `FlowerCount(depth)` flowers. */
    method Blossom(x: real, y: real, endX: real, endY: real, angle: real, length: real, depth: int)
      modifies this`randomSeed, this`flowerClusters
      ensures State() == Bloom(t, old(State()), x, y, endX, endY, angle, length, depth)
    {
      if depth >= 4 {
        var r := SeededRandom();
        if r < 0.85 {
          var numFlowers: nat := if depth >= 7 then 4 else if depth >= 6 then 3 else 2;
          ghost var g0 := State();
          var f := 0;
          while f < numFlowers
            invariant 0 <= f <= numFlowers
            invariant Flowers(t, State(), x, y, endX, endY, angle, length, f, numFlowers) ==
                      Flowers(t, g0, x, y, endX, endY, angle, length, 0, numFlowers)
            decreases numFlowers - f
          {
            PushFlower(x, y, endX, endY, angle, length, f, numFlowers);
            f := f + 1;
          }
        }
      }
    }

    /** The branching part of `growBranch`: two or three children, each one level deeper. */
    method FanOut(endX: real, endY: real, angle: real, length: real, width: real, depth: int)
      requires depth < 8
      modifies this`randomSeed, this`branches, this`flowerClusters
      ensures var g2 := old(State());
        State() == Children(t, if 2 <= depth < 5 then Roll(g2) else g2, endX, endY, angle, length, width, depth,
                            0, BranchCount(depth, Draw(g2.seed)))
      decreases 10 - depth, 1
    {
      ghost var g2 := State();
      var numBranches: nat;
      if depth < 2 {
        numBranches := 2;
      } else if depth < 5 {
        var r := SeededRandom();
        numBranches := if r > 0.5 then 2 else 3;
      } else {
        numBranches := 2;
      }
      ghost var g3 := State();
      var i: nat := 0;
      while i < numBranches
        invariant i <= numBranches
        invariant Children(t, State(), endX, endY, angle, length, width, depth, i, numBranches) ==
                  Children(t, g3, endX, endY, angle, length, width, depth, 0, numBranches)
        decreases numBranches - i
      {
        ghost var before := State();
        GrowChild(endX, endY, angle, length, width, depth, i, numBranches);
        ChildrenStep(t, before, endX, endY, angle, length, width, depth, i, numBranches);
        i := i + 1;
      }
    }

    /** One pass of the fan-out loop: child `i` of `n`, its two draws and its subtree. */
    method GrowChild(endX: real, endY: real, angle: real, length: real, width: real, depth: int, i: nat, n: nat)
      requires depth < 8
      modifies this`randomSeed, this`branches, this`flowerClusters
      ensures var s := old(randomSeed);
        State() == Child(t, old(State()), endX, endY, angle, length, width, depth, i, n, Draw(s), Draw(NextSeed(s)))
      decreases 10 - depth, 0
    {
      ghost var before := State();
      var childAngle, childLength := DrawChild(angle, length, i, n);
      ghost var mid := State();
      assert mid == Roll(Roll(before));
      GrowBranch(endX, endY, childAngle, childLength, width * 0.7, depth + 1);
      ChildIsGrow(t, before, endX, endY, angle, length, width, depth, i, n,
                  Draw(before.seed), Draw(NextSeed(before.seed)), mid, childAngle, childLength, State());
    }

    /** The two draws of a fan-out child: its direction, offset from the parent's, and its length. */
    method DrawChild(angle: real, length: real, i: nat, n: nat) returns (childAngle: real, childLength: real)
      modifies this`randomSeed
      ensures var s := old(randomSeed);
        randomSeed == NextSeed(NextSeed(s)) &&
        childAngle == angle + Offset(Draw(s), i, n) && childLength == ChildLength(length, Draw(NextSeed(s)))
      ensures length > 0.0 ==> 0.65 * length <= childLength < 0.80 * length
    {
      var angleOffset := DrawOffset(i, n);
      childAngle := angle + angleOffset;
      var r2 := SeededRandom();
      childLength := length * (0.65 + r2 * 0.15);
      if length > 0.0 {
        ChildLengthRange(length, r2);
      }
    }

    /** The first draw of a fan-out child: two children leave on opposite sides, three fan around the parent. */
    method DrawOffset(i: nat, n: nat) returns (angleOffset: real)
      modifies this`randomSeed
      ensures randomSeed == NextSeed(old(randomSeed)) && angleOffset == Offset(Draw(old(randomSeed)), i, n)
    {
      if n == 2 {
        var r1 := SeededRandom();
        angleOffset := (if i == 0 then -1.0 else 1.0) * (0.4 + r1 * 0.3);
      } else {
        var r1 := SeededRandom();
        angleOffset := (i as real - 1.0) * (0.45 + r1 * 0.2);
      }
    }

    /**
     * `generateTree()`: clears the tree and grows it again from the current
     * random state.
     */
    method GenerateTree()
      modifies this`randomSeed, this`branches, this`flowerClusters
      ensures State() == SakuraGenerator.GenerateTree(t, old(randomSeed))
    {
      ghost var seed0 := randomSeed;
      branches := [];
      flowerClusters := [];
      var startX := centerX;
      var startY := baseY;
      var trunkHeight := baseHeight * 0.35;
      assert startX == 400.0 && startY == 600.0 && startX - 8.0 == 392.0 && startY - trunkHeight == 390.0;
      DrawTrunk(startX, startY, startX - 8.0, startY - trunkHeight, 70.0, 45.0);
      ghost var g0 := State();
      assert g0 == Gen(seed0, TreeTrunk(), []);
      var trunkTopX := startX - 8.0;
      var trunkTopY := startY - trunkHeight;
      var leaderLength := baseHeight * 0.15;
      assert trunkTopX == 392.0 && trunkTopY == 390.0 && leaderLength == 600.0 * 0.15;
      GrowBranch(trunkTopX, trunkTopY, -PI / 2.0, leaderLength, 32.0, 1);
      ghost var g1 := State();
      assert g1 == Grow(t, g0, 392.0, 390.0, -PI / 2.0, 600.0 * 0.15, 32.0, 1);

      var r := SeededRandom();
      var numMainBranches := 3 + (r * 2.0).Floor;
      assert numMainBranches == MainCount(g1.seed);
      ghost var g2 := State();
      assert g2 == Roll(g1);
      GrowMainBranches(numMainBranches);
      ghost var g3 := State();
      assert g3 == MainBranches(t, g2, 0, numMainBranches);
      GrowSmallBranches();
      assert State() == SmallBranches(t, MainBranches(t, Roll(g1), 0, MainCount(g1.seed)), 0);
    }

    /** The main-branch loop of `generateTree()`: `num` branches off the trunk. */
    method GrowMainBranches(num: int)
      modifies this`randomSeed, this`branches, this`flowerClusters
      ensures State() == MainBranches(t, old(State()), 0, num)
    {
      ghost var g := State();
      var i: nat := 0;
      while i < num
        invariant MainBranches(t, State(), i, num) == MainBranches(t, g, 0, num)
        decreases num - i
      {
        ghost var before := State();
        GrowMainBranch(i);
        MainBranchesStep(t, before, i, num);
        i := i + 1;
      }
    }

    /** The small-branch loop of `generateTree()`: two short branches higher up. */
    method GrowSmallBranches()
      modifies this`randomSeed, this`branches, this`flowerClusters
      ensures State() == SmallBranches(t, old(State()), 0)
    {
      ghost var g := State();
      var i: nat := 0;
      while i < 2
        invariant i <= 2
        invariant SmallBranches(t, State(), i) == SmallBranches(t, g, 0)
      {
        ghost var before := State();
        GrowSmallBranch(i);
        SmallBranchesStep(t, before, i);
        i := i + 1;
      }
    }

    /**
     * One pass of the main-branch loop: three draws fix where branch `i`
     * leaves the trunk, its lean and its length.
     */
    method GrowMainBranch(i: nat)
      modifies this`randomSeed, this`branches, this`flowerClusters
      ensures var s := old(randomSeed);
        State() == MainBranch(t, old(State()), i, Draw(s), Draw(NextSeed(s)), Draw(NextSeed(NextSeed(s))))
    {
      ghost var before := State();
      var r1 := SeededRandom();
      var heightRatio := 0.3 + i as real * 0.15 + r1 * 0.1;
      var side := if i % 2 == 0 then -1.0 else 1.0;
      var r2 := SeededRandom();
      var angle := -PI / 2.0 + side * (0.4 + r2 * 0.3);
      assert angle == MainAngle(i, r2);
      var r3 := SeededRandom();
      var length := MainLength(r3);
      GrowBranch(TrunkX(heightRatio), TrunkY(heightRatio), angle, length, 35.0, 1);
      assert heightRatio == MainHeight(i, r1);
    }

    /** One pass of the small-branch loop: one draw fixes the lean of branch `i`. */
    method GrowSmallBranch(i: nat)
      modifies this`randomSeed, this`branches, this`flowerClusters
      ensures State() == SmallBranch(t, old(State()), i, Draw(old(randomSeed)))
    {
      ghost var before := State();
      var heightRatio := 0.6 + i as real * 0.15;
      var side := if i % 2 == 0 then 1.0 else -1.0;
      var r1 := SeededRandom();
      var angle := -PI / 2.0 + side * (0.25 + r1 * 0.2);
      assert angle == SmallAngle(i, r1);
      ghost var mid := State();
      assert mid == Roll(before);
      var length := baseHeight * 0.18;
      assert length == 108.0;
      GrowBranch(TrunkX(heightRatio), TrunkY(heightRatio), angle, length, 28.0, 1);
      assert TrunkX(heightRatio) == TrunkX(0.6 + i as real * 0.15);
      assert TrunkY(heightRatio) == TrunkY(0.6 + i as real * 0.15);
      SmallBranchIsGrow(t, before, i, r1);
    }

    /**
     * `renderTreeToCache()`: the design frame scaled onto the canvas, every
     * branch stroked in generation order, then the clusters painted in the
     * order of the sort as written.
     */
    method RenderTreeToCache()
      modifies this`cache
      ensures cache == Raster(branches, flowerClusters, scaleX, scaleY)
    {
      var ops: seq<Op> := [Scale(scaleX, scaleY)];
      for i := 0 to |branches|
        invariant ops == [Scale(scaleX, scaleY)] + Strokes(branches[..i])
      {
        var b := branches[i];
        ops := ops + [Stroke(b.x1, b.y1, b.x2, b.y2, b.width, BranchColour(b.depth))];
        assert branches[..i + 1] == branches[..i] + [b];
      }
      assert branches[..|branches|] == branches;
      var sorted := DrawOrderAsWritten(flowerClusters);
      for i := 0 to |sorted|
        invariant ops == [Scale(scaleX, scaleY)] + Strokes(branches) + Sprites(sorted[..i])
      {
        var c := sorted[i];
        ops := ops + [Sprite(TierOf(c.layer), c)];
        assert sorted[..i + 1] == sorted[..i] + [c];
      }
      assert sorted[..|sorted|] == sorted;
      cache := ops;
    }

    /** `initFallingPetals()`: `PetalCount(perf)` petals, each from twelve consecutive values of `rand`. */
    method InitFallingPetals(perf: Option<PerformanceConfig.Config>, rand: seq<real>)
      requires |rand| >= DrawsPerPetal * PetalCount(perf)
      modifies this`fallingPetals
      ensures fresh(fallingPetals)
      ensures fallingPetals[..] == Pool(width, height, PetalCount(perf), rand)
    {
      var petalCount := if perf.Some? then perf.value.fallingPetalsCount else 30;
      var petals := new Petal[petalCount];
      for i := 0 to petalCount
        invariant forall k :: 0 <= k < i ==>
          petals[k] == MakePetal(width, height, rand[DrawsPerPetal * k..DrawsPerPetal * k + DrawsPerPetal])
      {
        petals[i] := MakePetal(width, height, rand[DrawsPerPetal * i..DrawsPerPetal * i + DrawsPerPetal]);
      }
      fallingPetals := petals;
    }

    /**
     * `drawFallingPetals()`: every petal of the pool is moved in place, and
     * the colour it is painted in is returned; `rx[i]` is the value petal `i`
     * takes if it restarts at the top.
     */
    method DrawFallingPetals(rx: seq<real>) returns (colours: seq<Rgb>)
      requires |rx| == fallingPetals.Length
      modifies fallingPetals
      ensures fallingPetals[..] == StepAll(t, old(fallingPetals[..]), width, height, windStrength, rx)
      ensures |colours| == fallingPetals.Length
      ensures forall i :: 0 <= i < |colours| ==>
        colours[i] == ThemeColors(currentTheme)[ColourIndex(fallingPetals[i].x, fallingPetals[i].y)]
    {
      var colors := ThemeColors(currentTheme);
      colours := [];
      for i := 0 to fallingPetals.Length
        invariant |colours| == i
        invariant forall k :: 0 <= k < i ==>
          fallingPetals[k] == StepPetal(t, old(fallingPetals[k]), width, height, windStrength, rx[k]) &&
          colours[k] == colors[ColourIndex(fallingPetals[k].x, fallingPetals[k].y)]
        invariant forall k :: i <= k < fallingPetals.Length ==> fallingPetals[k] == old(fallingPetals[k])
      {
        var p := StepPetal(t, fallingPetals[i], width, height, windStrength, rx[i]);
        fallingPetals[i] := p;
        colours := colours + [colors[ColourIndex(p.x, p.y)]];
      }
    }

    /**
     * One frame of `animate()`: the wind advances, the tree sways when
     * `EnableSway(perf)`, and the petals move.
     */
    method Animate(perf: Option<PerformanceConfig.Config>, rx: seq<real>) returns (sway: bool, colours: seq<Rgb>)
      requires |rx| == fallingPetals.Length
      modifies this`windTime, this`windStrength, fallingPetals
      ensures windTime == old(windTime) + 0.01
      ensures windStrength == t.sin(windTime) * 0.8 + t.sin(windTime * 2.3) * 0.4
      ensures sway == EnableSway(perf)
      ensures fallingPetals[..] == StepAll(t, old(fallingPetals[..]), width, height, windStrength, rx)
      ensures |colours| == fallingPetals.Length
    {
      windTime := windTime + 0.01;
      windStrength := t.sin(windTime) * 0.8 + t.sin(windTime * 2.3) * 0.4;
      sway := !perf.Some? || perf.value.enableTreeSway;
      colours := DrawFallingPetals(rx);
    }

    /** The shared tail of the resize listener and `updateTheme()`: seed reset, regenerate, re-render. */
    method Rebuild()
      modifies this`randomSeed, this`branches, this`flowerClusters, this`cache
      ensures Grown()
    {
      randomSeed := seed;
      GenerateTree();
      RenderTreeToCache();
    }

    /** `Rebuild()` on an object already holding its tree: the same seed grows the same tree. */
    method Regrow()
      requires Grown()
      modifies this`randomSeed, this`branches, this`flowerClusters, this`cache
      ensures Grown()
      ensures branches == old(branches) && flowerClusters == old(flowerClusters) && cache == old(cache)
    {
      ghost var bs, cs := branches, flowerClusters;
      Rebuild();
      SeedTreeUnique(bs, cs, branches, flowerClusters);
    }

    /**
     * The `resize` listener: new canvas size, seed reset, tree regenerated and
     * re-rendered. The tree is the same; the cache is painted again at the
     * new scale, and only its scale differs from before.
     */
    method OnResize(w: real, h: real)
      requires Valid() && hasCanvas && w >= 0.0 && h >= 0.0
      modifies this`width, this`height, this`scaleX, this`scaleY,
               this`randomSeed, this`branches, this`flowerClusters, this`cache
      ensures Valid() && width == w && height == h
      ensures branches == old(branches) && flowerClusters == old(flowerClusters)
      ensures cache == Raster(branches, flowerClusters, w / baseWidth, h / baseHeight)
      ensures |cache| == |old(cache)| && cache[0] == Scale(w / baseWidth, h / baseHeight) && cache[1..] == old(cache)[1..]
    {
      ghost var bs, cs, c0, sx, sy := branches, flowerClusters, cache, scaleX, scaleY;
      Resize(w, h);
      Rebuild();
      Rescaled(bs, cs, c0, sx, sy);
    }

    /** A rebuilt tree of the seed is the tree it replaced, and its cache differs from the old one only in its scale. */
    lemma Rescaled(bs: seq<Branch>, cs: seq<Cluster>, c0: seq<Op>, sx: real, sy: real)
      requires IsSeedTree(bs, cs) && c0 == Raster(bs, cs, sx, sy) && Grown()
      ensures branches == bs && flowerClusters == cs
      ensures |cache| == |c0| && cache[0] == Scale(scaleX, scaleY) && cache[1..] == c0[1..]
    {
      SeedTreeUnique(bs, cs, branches, flowerClusters);
      RasterRescale(bs, cs, scaleX, scaleY, sx, sy);
    }

    /** `updateTheme()`: seed reset, tree regenerated and re-rendered. */
    method UpdateTheme()
      requires Valid() && hasCanvas
      modifies this`randomSeed, this`branches, this`flowerClusters, this`cache
      ensures Valid()
      ensures branches == old(branches) && flowerClusters == old(flowerClusters) && cache == old(cache)
    {
      Regrow();
    }

    /** The theme observer: a change of `data-theme` to a different theme triggers `updateTheme()`. */
    method OnThemeAttribute(attr: Option<string>)
      requires Valid() && hasCanvas
      modifies this`currentTheme, this`randomSeed, this`branches, this`flowerClusters, this`cache
      ensures Valid() && currentTheme == CurrentTheme(attr)
      ensures branches == old(branches) && flowerClusters == old(flowerClusters) && cache == old(cache)
    {
      var newTheme := CurrentTheme(attr);
      if newTheme != currentTheme {
        currentTheme := newTheme;
        UpdateTheme();
      }
    }
  }
}
