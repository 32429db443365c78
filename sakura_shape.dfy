/**
 * What the generator of js/sakura-tree.js promises about the tree it builds,
 * proved about the functions of `SakuraGenerator` for every seed and every
 * choice of `Math.cos`/`Math.sin`.
 */
module SakuraShape {
  import opened SakuraRandom
  import opened SakuraGenerator

  /** `r` only appended to `g`'s branches and clusters. */
  ghost predicate Extends(g: Gen, r: Gen) {
    g.branches <= r.branches && g.clusters <= r.clusters
  }

  /** The branch is a segment of length at least 6 in some direction. */
  ghost predicate LongSegment(t: Trig, b: Branch) {
    exists a: real, l: real :: l >= 6.0 && Endpoint(t, b.x1, b.y1, a, l) == (b.x2, b.y2)
  }

  /**
   * A branch pushed by a `growBranch` call at `depth` with `width`, or by one of
   * its descendants: never deeper than 9, deeper than 8 only when the call
   * itself was at 9, width shrunk by 0.7 per generation, length at least 6.
   */
  ghost predicate Grown(t: Trig, b: Branch, depth: int, width: real) {
    depth <= b.depth <= 9 && (b.depth == depth || b.depth <= 8) &&
    b.width == width * Pow(0.7, b.depth - depth) && LongSegment(t, b)
  }

  /** A flower cluster as `growBranch` makes it: the size and opacity ranges belong to its layer. */
  ghost predicate ClusterOk(c: Cluster) {
    c.isSingle && c.density == 0 && 0 <= c.patternIndex < 4 && 0.0 <= c.rotation < 2.0 * PI &&
    ((c.layer == 2 && 10.0 <= c.size < 16.0 && c.opacity == 0.9) ||
     (c.layer == 1 && 8.0 <= c.size < 12.0 && 0.65 <= c.opacity < 0.85) ||
     (c.layer == 0 && 6.0 <= c.size < 10.0 && 0.4 <= c.opacity < 0.6))
  }

  ghost predicate NewBranchesGrown(t: Trig, g: Gen, r: Gen, depth: int, width: real)
    requires |g.branches| <= |r.branches|
  {
    forall k :: |g.branches| <= k < |r.branches| ==> Grown(t, r.branches[k], depth, width)
  }

  ghost predicate NewClustersOk(g: Gen, r: Gen)
    requires |g.clusters| <= |r.clusters|
  {
    forall k :: |g.clusters| <= k < |r.clusters| ==> ClusterOk(r.clusters[k])
  }

  // ---------------------------------------------------------------- trunk

  /**
   * The trunk of the tree is 12 depth-0 segments that join end to start, from
   * the foot (400, 600) to the top (392, 390).
   */
  lemma TrunkJoins()
    ensures var s := TreeTrunk();
      |s| == 12 &&
      s[0].x1 == 400.0 && s[0].y1 == 600.0 && s[11].x2 == 392.0 && s[11].y2 == 390.0 &&
      (forall i :: 0 <= i < 11 ==> s[i].x2 == s[i + 1].x1 && s[i].y2 == s[i + 1].y1) &&
      (forall i :: 0 <= i < 12 ==> s[i].depth == 0)
  {
    var s := TreeTrunk();
    forall i | 0 <= i < 11 ensures s[i].x2 == s[i + 1].x1 && s[i].y2 == s[i + 1].y1 {
      assert s[i] == TrunkSegment(400.0, 600.0, 392.0, 390.0, 70.0, 45.0, i);
      assert s[i + 1] == TrunkSegment(400.0, 600.0, 392.0, 390.0, 70.0, 45.0, i + 1);
    }
  }

  /** The trunk tapers: 70 wide at the foot, each segment narrower than the one below, all wider than 45. */
  lemma TrunkTapers()
    ensures var s := TreeTrunk();
      |s| == 12 && s[0].width == 70.0 &&
      (forall i :: 0 <= i < 11 ==> s[i + 1].width < s[i].width) &&
      (forall i :: 0 <= i < 12 ==> 45.0 < s[i].width <= 70.0)
  {
    var s := TreeTrunk();
    forall i | 0 <= i < 11 ensures s[i + 1].width < s[i].width {
      assert s[i] == TrunkSegment(400.0, 600.0, 392.0, 390.0, 70.0, 45.0, i);
      assert s[i + 1] == TrunkSegment(400.0, 600.0, 392.0, 390.0, 70.0, 45.0, i + 1);
    }
  }

  // -------------------------------------------------------------- flowers

  lemma FlowerShape(t: Trig, g: Gen, x: real, y: real, endX: real, endY: real,
                    angle: real, length: real, f: nat, num: nat)
    requires num > 0
    ensures var r := Flower(t, g, x, y, endX, endY, angle, length, f, num);
      r.branches == g.branches && |r.clusters| == |g.clusters| + 1 && Extends(g, r) &&
      ClusterOk(r.clusters[|g.clusters|])
  {
    var s3 := NextSeed(NextSeed(NextSeed(g.seed)));
    var s6 := NextSeed(NextSeed(NextSeed(s3)));
    var s7 := NextSeed(s6);
    MakeClusterOk(t, x, y, endX, endY, angle, length, f, num,
                  Draw(g.seed), Draw(NextSeed(g.seed)), Draw(NextSeed(NextSeed(g.seed))), Draw(s3),
                  Draw(NextSeed(s3)), Draw(NextSeed(NextSeed(s3))), Draw(s6),
                  if Draw(s3) > 0.7 then 0.0 else Draw(s7));
  }

  /** A cluster made from draws in `[0, 1)` has the size, opacity, rotation and pattern ranges of its layer. */
  lemma MakeClusterOk(t: Trig, x: real, y: real, endX: real, endY: real, angle: real, length: real,
                      f: nat, num: nat, r1: real, r2: real, r3: real, r4: real,
                      r5: real, r6: real, r7: real, r8: real)
    requires num > 0
    requires 0.0 <= r4 < 1.0 && 0.0 <= r5 < 1.0 && 0.0 <= r6 < 1.0 && 0.0 <= r7 < 1.0 && 0.0 <= r8 < 1.0
    ensures ClusterOk(MakeCluster(t, x, y, endX, endY, angle, length, f, num, r1, r2, r3, r4, r5, r6, r7, r8))
  {
    var p := r7 * 4.0;
    assert 0.0 <= p < 4.0;
    assert 0 <= p.Floor < 4;
  }

  lemma {:induction false} FlowersShape(t: Trig, g: Gen, x: real, y: real, endX: real, endY: real,
                                        angle: real, length: real, f: nat, num: nat)
    ensures var r := Flowers(t, g, x, y, endX, endY, angle, length, f, num);
      r.branches == g.branches && Extends(g, r) &&
      |r.clusters| == |g.clusters| + (if f <= num then num - f else 0) &&
      NewClustersOk(g, r)
    decreases num - f
  {
    if f < num {
      var g1 := Flower(t, g, x, y, endX, endY, angle, length, f, num);
      FlowerShape(t, g, x, y, endX, endY, angle, length, f, num);
      FlowersShape(t, g1, x, y, endX, endY, angle, length, f + 1, num);
    }
  }

  /**
   * The flowering step adds no flower at depths 0 to 3 and otherwise either
   * none (the 15% draw) or exactly `FlowerCount(depth)` well-formed clusters.
   */
  lemma BloomShape(t: Trig, g: Gen, x: real, y: real, endX: real, endY: real,
                   angle: real, length: real, depth: int)
    ensures var r := Bloom(t, g, x, y, endX, endY, angle, length, depth);
      r.branches == g.branches && Extends(g, r) && NewClustersOk(g, r) &&
      |r.clusters| - |g.clusters| ==
        (if depth >= 4 && Draw(g.seed) < 0.85 then FlowerCount(depth) else 0)
  {
    if depth >= 4 && Draw(g.seed) < 0.85 {
      FlowersShape(t, Roll(g), x, y, endX, endY, angle, length, 0, FlowerCount(depth));
    }
  }

  // ------------------------------------------------------------- branches

  lemma GrownOneUp(t: Trig, b: Branch, depth: int, width: real)
    requires depth < 8 && Grown(t, b, depth + 1, width * 0.7)
    ensures Grown(t, b, depth, width) && b.depth > depth
  {
    var k := b.depth - depth;
    assert Pow(0.7, k) == 0.7 * Pow(0.7, k - 1);
    assert b.width == width * (0.7 * Pow(0.7, k - 1));
  }

  /** `r` appended to `g` only `Grown` branches and well-formed flowers. */
  ghost predicate AppendsGrown(t: Trig, g: Gen, r: Gen, depth: int, width: real) {
    Extends(g, r) && NewBranchesGrown(t, g, r, depth, width) && NewClustersOk(g, r)
  }

  /**
   * What a `growBranch` call at `depth` with `width` leaves behind: it only
   * appended, every branch it appended is `Grown`, every flower is well formed,
   * and only the first branch it appended is at its own depth.
   */
  ghost predicate GrowsWell(t: Trig, g: Gen, r: Gen, depth: int, width: real) {
    AppendsGrown(t, g, r, depth, width) &&
    (forall k :: |g.branches| < k < |r.branches| ==> r.branches[k].depth > depth)
  }

  /** A call with `depth > 9` or `length < 6` pushes nothing; any other pushes its own segment first. */
  lemma GrowRoot(t: Trig, g: Gen, x: real, y: real, angle: real, length: real, width: real, depth: int)
    ensures var r := Grow(t, g, x, y, angle, length, width, depth);
      (depth > 9 || length < 6.0 ==> r == g) &&
      (depth <= 9 && length >= 6.0 ==>
         |r.branches| > |g.branches| &&
         r.branches[|g.branches|] == Branch(x, y, Endpoint(t, x, y, angle, length).0,
                                            Endpoint(t, x, y, angle, length).1, width, depth))
  {
    if depth <= 9 && length >= 6.0 {
      var end := Endpoint(t, x, y, angle, length);
      var g1 := g.(branches := g.branches + [Branch(x, y, end.0, end.1, width, depth)]);
      var g2 := Bloom(t, g1, x, y, end.0, end.1, angle, length, depth);
      BloomShape(t, g1, x, y, end.0, end.1, angle, length, depth);
      if depth < 8 {
        var n := BranchCount(depth, Draw(g2.seed));
        var g3 := if 2 <= depth < 5 then Roll(g2) else g2;
        ChildrenShape(t, g3, end.0, end.1, angle, length, width, depth, 0, n);
      }
    }
  }

  lemma {:induction false} GrowShape(t: Trig, g: Gen, x: real, y: real, angle: real, length: real,
                                     width: real, depth: int)
    ensures GrowsWell(t, g, Grow(t, g, x, y, angle, length, width, depth), depth, width)
    decreases 10 - depth, 1, 0, 0
  {
    if depth > 9 || length < 6.0 {
      return;
    }
    var end := Endpoint(t, x, y, angle, length);
    var root := Branch(x, y, end.0, end.1, width, depth);
    var g1 := g.(branches := g.branches + [root]);
    var g2 := Bloom(t, g1, x, y, end.0, end.1, angle, length, depth);
    BloomShape(t, g1, x, y, end.0, end.1, angle, length, depth);
    assert Endpoint(t, root.x1, root.y1, angle, length) == (root.x2, root.y2);
    assert Grown(t, root, depth, width);
    if depth < 8 {
      var n := BranchCount(depth, Draw(g2.seed));
      var g3 := if 2 <= depth < 5 then Roll(g2) else g2;
      var r := Children(t, g3, end.0, end.1, angle, length, width, depth, 0, n);
      ChildrenShape(t, g3, end.0, end.1, angle, length, width, depth, 0, n);
      forall k | |g3.branches| <= k < |r.branches|
        ensures Grown(t, r.branches[k], depth, width) && r.branches[k].depth > depth
      {
        GrownOneUp(t, r.branches[k], depth, width);
      }
    }
  }

  lemma {:induction false} ChildrenShape(t: Trig, g: Gen, endX: real, endY: real, angle: real,
                                         length: real, width: real, depth: int, i: nat, n: nat)
    requires depth < 8
    ensures AppendsGrown(t, g, Children(t, g, endX, endY, angle, length, width, depth, i, n), depth + 1, width * 0.7)
    decreases 10 - depth, 0, n - i, 1
  {
    if i < n {
      var r1, r2 := Draw(g.seed), Draw(NextSeed(g.seed));
      var g2 := Child(t, g, endX, endY, angle, length, width, depth, i, n, r1, r2);
      ChildShape(t, g, endX, endY, angle, length, width, depth, i, n, r1, r2);
      ChildrenShape(t, g2, endX, endY, angle, length, width, depth, i + 1, n);
      Chain(t, g, g2, Children(t, g2, endX, endY, angle, length, width, depth, i + 1, n), depth + 1, width * 0.7);
    }
  }

  lemma {:induction false} ChildShape(t: Trig, g: Gen, endX: real, endY: real, angle: real,
                                      length: real, width: real, depth: int, i: nat, n: nat,
                                      r1: real, r2: real)
    requires depth < 8
    ensures AppendsGrown(t, g, Child(t, g, endX, endY, angle, length, width, depth, i, n, r1, r2),
                         depth + 1, width * 0.7)
    decreases 10 - depth, 0, n - i, 0
  {
    var g1 := Roll(Roll(g));
    var r := Grow(t, g1, endX, endY, angle + Offset(r1, i, n), ChildLength(length, r2), width * 0.7, depth + 1);
    GrowShape(t, g1, endX, endY, angle + Offset(r1, i, n), ChildLength(length, r2), width * 0.7, depth + 1);
    assert AppendsGrown(t, g1, r, depth + 1, width * 0.7);
    assert g1.branches == g.branches && g1.clusters == g.clusters;
  }

  /** Appending twice, each time well-formed, is one well-formed append. */
  lemma Chain(t: Trig, g: Gen, m: Gen, r: Gen, depth: int, width: real)
    requires Extends(g, m) && NewBranchesGrown(t, g, m, depth, width) && NewClustersOk(g, m)
    requires Extends(m, r) && NewBranchesGrown(t, m, r, depth, width) && NewClustersOk(m, r)
    ensures Extends(g, r) && NewBranchesGrown(t, g, r, depth, width) && NewClustersOk(g, r)
  {
    forall k | |g.branches| <= k < |r.branches| ensures Grown(t, r.branches[k], depth, width) {
      if k < |m.branches| {
        assert r.branches[k] == m.branches[k];
      }
    }
    forall k | |g.clusters| <= k < |r.clusters| ensures ClusterOk(r.clusters[k]) {
      if k < |m.clusters| {
        assert r.clusters[k] == m.clusters[k];
      }
    }
  }

  // --------------------------------------------------------- connectivity

  /** Branch `k` starts where some earlier branch, one level shallower, ends. */
  ghost predicate Linked(bs: seq<Branch>, k: int)
    requires 0 <= k < |bs|
  {
    exists j :: 0 <= j < k && bs[j].depth + 1 == bs[k].depth && bs[j].x2 == bs[k].x1 && bs[j].y2 == bs[k].y1
  }

  ghost predicate LinkedFrom(bs: seq<Branch>, lo: int) {
    forall k :: 0 <= lo <= k < |bs| ==> Linked(bs, k)
  }

  lemma LinkedStays(bs: seq<Branch>, cs: seq<Branch>, k: int)
    requires bs <= cs && 0 <= k < |bs| && Linked(bs, k)
    ensures Linked(cs, k)
  {
    var j :| 0 <= j < k && bs[j].depth + 1 == bs[k].depth && bs[j].x2 == bs[k].x1 && bs[j].y2 == bs[k].y1;
    assert cs[j] == bs[j] && cs[k] == bs[k];
  }

  /** Every branch a `growBranch` call pushes after its own segment sprouts from the end of its parent. */
  lemma {:induction false} GrowLinked(t: Trig, g: Gen, x: real, y: real, angle: real, length: real,
                                      width: real, depth: int)
    ensures LinkedFrom(Grow(t, g, x, y, angle, length, width, depth).branches, |g.branches| + 1)
    decreases 10 - depth, 1, 0, 0
  {
    if depth > 9 || length < 6.0 {
      return;
    }
    var end := Endpoint(t, x, y, angle, length);
    var g1 := g.(branches := g.branches + [Branch(x, y, end.0, end.1, width, depth)]);
    var g2 := Bloom(t, g1, x, y, end.0, end.1, angle, length, depth);
    BloomShape(t, g1, x, y, end.0, end.1, angle, length, depth);
    if depth < 8 {
      var n := BranchCount(depth, Draw(g2.seed));
      var g3 := if 2 <= depth < 5 then Roll(g2) else g2;
      ChildrenLinked(t, g3, end.0, end.1, angle, length, width, depth, 0, n, |g.branches|);
    }
  }

  lemma {:induction false} ChildrenLinked(t: Trig, g: Gen, endX: real, endY: real, angle: real,
                                          length: real, width: real, depth: int, i: nat, n: nat, p: int)
    requires depth < 8
    requires 0 <= p < |g.branches| && g.branches[p].depth == depth
    requires g.branches[p].x2 == endX && g.branches[p].y2 == endY
    ensures LinkedFrom(Children(t, g, endX, endY, angle, length, width, depth, i, n).branches, |g.branches|)
    decreases 10 - depth, 0, n - i, 1
  {
    if i < n {
      var r1, r2 := Draw(g.seed), Draw(NextSeed(g.seed));
      var g2 := Child(t, g, endX, endY, angle, length, width, depth, i, n, r1, r2);
      var r := Children(t, g2, endX, endY, angle, length, width, depth, i + 1, n);
      ChildShape(t, g, endX, endY, angle, length, width, depth, i, n, r1, r2);
      ChildLinked(t, g, endX, endY, angle, length, width, depth, i, n, r1, r2, p);
      assert g2.branches[p] == g.branches[p];
      ChildrenLinked(t, g2, endX, endY, angle, length, width, depth, i + 1, n, p);
      ChildrenShape(t, g2, endX, endY, angle, length, width, depth, i + 1, n);
      forall k | |g.branches| <= k < |g2.branches| ensures Linked(r.branches, k) {
        LinkedStays(g2.branches, r.branches, k);
      }
    }
  }

  lemma {:induction false} ChildLinked(t: Trig, g: Gen, endX: real, endY: real, angle: real,
                                       length: real, width: real, depth: int, i: nat, n: nat,
                                       r1: real, r2: real, p: int)
    requires depth < 8
    requires 0 <= p < |g.branches| && g.branches[p].depth == depth
    requires g.branches[p].x2 == endX && g.branches[p].y2 == endY
    ensures LinkedFrom(Child(t, g, endX, endY, angle, length, width, depth, i, n, r1, r2).branches, |g.branches|)
    decreases 10 - depth, 0, n - i, 0
  {
    RootLinked(t, Roll(Roll(g)), endX, endY, angle + Offset(r1, i, n), ChildLength(length, r2),
               width * 0.7, depth + 1, p);
  }

  /** A call whose start is the end of branch `p`, one level up, links everything it pushes. */
  lemma RootLinked(t: Trig, g: Gen, x: real, y: real, angle: real, length: real, width: real,
                   depth: int, p: int)
    requires 0 <= p < |g.branches| && g.branches[p].depth + 1 == depth
    requires g.branches[p].x2 == x && g.branches[p].y2 == y
    ensures LinkedFrom(Grow(t, g, x, y, angle, length, width, depth).branches, |g.branches|)
    decreases 10 - depth, 1, 0, 1
  {
    var r := Grow(t, g, x, y, angle, length, width, depth);
    GrowRoot(t, g, x, y, angle, length, width, depth);
    GrowShape(t, g, x, y, angle, length, width, depth);
    GrowLinked(t, g, x, y, angle, length, width, depth);
    if |r.branches| > |g.branches| {
      assert r.branches[p] == g.branches[p];
      assert Linked(r.branches, |g.branches|);
    }
  }

  // ------------------------------------------------------------- the tree

  /** How many of `bs` are at depth `d`. */
  function CountDepth(bs: seq<Branch>, d: int): (c: nat)
    ensures c <= |bs|
  {
    if bs == [] then 0 else CountDepth(bs[..|bs| - 1], d) + (if bs[|bs| - 1].depth == d then 1 else 0)
  }

  lemma {:induction false} CountDepthAppend(a: seq<Branch>, b: seq<Branch>, d: int)
    ensures CountDepth(a + b, d) == CountDepth(a, d) + CountDepth(b, d)
    decreases |b|
  {
    if b != [] {
      assert (a + b)[..|a + b| - 1] == a + b[..|b| - 1];
      CountDepthAppend(a, b[..|b| - 1], d);
    } else {
      assert a + b == a;
    }
  }

  lemma {:induction false} CountDepthNone(bs: seq<Branch>, d: int)
    requires forall k :: 0 <= k < |bs| ==> bs[k].depth != d
    ensures CountDepth(bs, d) == 0
  {
    if bs != [] {
      CountDepthNone(bs[..|bs| - 1], d);
    }
  }

  lemma {:induction false} CountDepthAll(bs: seq<Branch>, d: int)
    requires forall k :: 0 <= k < |bs| ==> bs[k].depth == d
    ensures CountDepth(bs, d) == |bs|
  {
    if bs != [] {
      CountDepthAll(bs[..|bs| - 1], d);
    }
  }

  /**
   * From index `lo` on, every branch is at a depth from 1 to 8, and every one
   * below the first level sprouts from the end of its parent.
   */
  ghost predicate Crown(bs: seq<Branch>, lo: int) {
    forall k :: 0 <= lo <= k < |bs| ==> 1 <= bs[k].depth <= 8 && (bs[k].depth > 1 ==> Linked(bs, k))
  }

  /** One first-level `growBranch` call long enough to draw: it adds exactly one first-level branch and keeps the crown well formed. */
  lemma TopGrow(t: Trig, g: Gen, x: real, y: real, angle: real, length: real, width: real, lo: int)
    requires length >= 6.0 && 0 <= lo <= |g.branches| && Crown(g.branches, lo)
    ensures var r := Grow(t, g, x, y, angle, length, width, 1);
      Extends(g, r) && NewClustersOk(g, r) && Crown(r.branches, lo) &&
      CountDepth(r.branches, 1) == CountDepth(g.branches, 1) + 1 &&
      CountDepth(r.branches, 0) == CountDepth(g.branches, 0)
  {
    GrowFirst(t, g, x, y, angle, length, width, 1);
    GrowShape(t, g, x, y, angle, length, width, 1);
    TopCount(g, Grow(t, g, x, y, angle, length, width, 1));
    TopCrown(t, g, x, y, angle, length, width, lo);
  }

  /** A call that may draw pushes its own segment, at its own depth, first. */
  lemma GrowFirst(t: Trig, g: Gen, x: real, y: real, angle: real, length: real, width: real, depth: int)
    requires depth <= 9 && length >= 6.0
    ensures var r := Grow(t, g, x, y, angle, length, width, depth);
      |r.branches| > |g.branches| && r.branches[|g.branches|].depth == depth
  {
    GrowRoot(t, g, x, y, angle, length, width, depth);
  }

  /** Appending one first-level branch and then only deeper ones adds one to the first-level count. */
  lemma TopCount(g: Gen, r: Gen)
    requires g.branches <= r.branches && |r.branches| > |g.branches| && r.branches[|g.branches|].depth == 1
    requires forall k :: |g.branches| < k < |r.branches| ==> r.branches[k].depth > 1
    ensures CountDepth(r.branches, 1) == CountDepth(g.branches, 1) + 1
    ensures CountDepth(r.branches, 0) == CountDepth(g.branches, 0)
  {
    var root, rest := r.branches[|g.branches|], r.branches[|g.branches| + 1..];
    assert r.branches == g.branches + ([root] + rest);
    forall j | 0 <= j < |rest| ensures rest[j].depth > 1 {
      assert rest[j] == r.branches[|g.branches| + 1 + j];
    }
    CountDepthNone(rest, 1);
    CountDepthNone(rest, 0);
    CountDepthAppend([root], rest, 1);
    CountDepthAppend([root], rest, 0);
    CountDepthAppend(g.branches, [root] + rest, 1);
    CountDepthAppend(g.branches, [root] + rest, 0);
    assert [root][..0] == [];
  }

  lemma TopCrown(t: Trig, g: Gen, x: real, y: real, angle: real, length: real, width: real, lo: int)
    requires length >= 6.0 && 0 <= lo <= |g.branches| && Crown(g.branches, lo)
    ensures Crown(Grow(t, g, x, y, angle, length, width, 1).branches, lo)
  {
    var r := Grow(t, g, x, y, angle, length, width, 1);
    GrowFirst(t, g, x, y, angle, length, width, 1);
    GrowShape(t, g, x, y, angle, length, width, 1);
    GrowLinked(t, g, x, y, angle, length, width, 1);
    forall k | lo <= k < |r.branches|
      ensures 1 <= r.branches[k].depth <= 8 && (r.branches[k].depth > 1 ==> Linked(r.branches, k))
    {
      if k < |g.branches| {
        assert r.branches[k] == g.branches[k];
        if r.branches[k].depth > 1 {
          LinkedStays(g.branches, r.branches, k);
        }
      } else {
        assert Grown(t, r.branches[k], 1, width);
      }
    }
  }

  /** The clusters two successive steps add are the ones either adds. */
  lemma ClustersChain(g: Gen, m: Gen, r: Gen)
    requires Extends(g, m) && NewClustersOk(g, m) && Extends(m, r) && NewClustersOk(m, r)
    ensures Extends(g, r) && NewClustersOk(g, r)
  {
    forall k | |g.clusters| <= k < |r.clusters| ensures ClusterOk(r.clusters[k]) {
      if k < |m.clusters| {
        assert r.clusters[k] == m.clusters[k];
      }
    }
  }

  lemma MainBranchTop(t: Trig, g: Gen, i: nat, r1: real, r2: real, r3: real, lo: int)
    requires 0.0 <= r3 && 0 <= lo <= |g.branches| && Crown(g.branches, lo)
    ensures var r := MainBranch(t, g, i, r1, r2, r3);
      Extends(g, r) && NewClustersOk(g, r) && Crown(r.branches, lo) &&
      CountDepth(r.branches, 1) == CountDepth(g.branches, 1) + 1 &&
      CountDepth(r.branches, 0) == CountDepth(g.branches, 0)
  {
    TopGrow(t, Roll(Roll(Roll(g))), TrunkX(MainHeight(i, r1)), TrunkY(MainHeight(i, r1)),
            MainAngle(i, r2), MainLength(r3), 35.0, lo);
  }

  lemma {:induction false} MainBranchesTop(t: Trig, g: Gen, i: nat, num: int, lo: int)
    requires 0 <= lo <= |g.branches| && Crown(g.branches, lo)
    ensures var r := MainBranches(t, g, i, num);
      Extends(g, r) && NewClustersOk(g, r) && Crown(r.branches, lo) &&
      CountDepth(r.branches, 1) == CountDepth(g.branches, 1) + (if i <= num then num - i else 0) &&
      CountDepth(r.branches, 0) == CountDepth(g.branches, 0)
    decreases num - i
  {
    if i < num {
      var r1, r2, r3 := Draw(g.seed), Draw(NextSeed(g.seed)), Draw(NextSeed(NextSeed(g.seed)));
      var g1 := MainBranch(t, g, i, r1, r2, r3);
      MainBranchTop(t, g, i, r1, r2, r3, lo);
      MainBranchesTop(t, g1, i + 1, num, lo);
      ClustersChain(g, g1, MainBranches(t, g1, i + 1, num));
    }
  }

  lemma SmallBranchTop(t: Trig, g: Gen, i: nat, r: real, lo: int)
    requires 0 <= lo <= |g.branches| && Crown(g.branches, lo)
    ensures var r := SmallBranch(t, g, i, r);
      Extends(g, r) && NewClustersOk(g, r) && Crown(r.branches, lo) &&
      CountDepth(r.branches, 1) == CountDepth(g.branches, 1) + 1 &&
      CountDepth(r.branches, 0) == CountDepth(g.branches, 0)
  {
    TopGrow(t, Roll(g), TrunkX(0.6 + i as real * 0.15), TrunkY(0.6 + i as real * 0.15),
            SmallAngle(i, r), 600.0 * 0.18, 28.0, lo);
  }

  lemma {:induction false} SmallBranchesTop(t: Trig, g: Gen, i: nat, lo: int)
    requires 0 <= lo <= |g.branches| && Crown(g.branches, lo)
    ensures var r := SmallBranches(t, g, i);
      Extends(g, r) && NewClustersOk(g, r) && Crown(r.branches, lo) &&
      CountDepth(r.branches, 1) == CountDepth(g.branches, 1) + (if i <= 2 then 2 - i else 0) &&
      CountDepth(r.branches, 0) == CountDepth(g.branches, 0)
    decreases 2 - i
  {
    if i < 2 {
      var g1 := SmallBranch(t, g, i, Draw(g.seed));
      SmallBranchTop(t, g, i, Draw(g.seed), lo);
      SmallBranchesTop(t, g1, i + 1, lo);
      ClustersChain(g, g1, SmallBranches(t, g1, i + 1));
    }
  }

  /** `3 + Math.floor(seededRandom() * 2)` is 3 or 4. */
  lemma MainCountRange(s: nat)
    ensures 3 <= MainCount(s) <= 4
  {
    var p := Draw(s) * 2.0;
    assert 0.0 <= p < 2.0;
  }

  /**
   * The whole tree, for any seed: the 12 trunk segments come first; after them
   * every branch is at depth 1 to 8 and every one below the first level
   * sprouts from the end of its parent; the first level has the leader, 3 or 4
   * main branches and the 2 small ones; every flower is well formed.
   */
  lemma TreeShape(t: Trig, seed: nat)
    ensures var r := GenerateTree(t, seed);
      |r.branches| >= 12 && r.branches[..12] == TreeTrunk() &&
      Crown(r.branches, 12) &&
      (forall k :: 0 <= k < |r.clusters| ==> ClusterOk(r.clusters[k])) &&
      CountDepth(r.branches, 0) == 12 &&
      6 <= CountDepth(r.branches, 1) <= 7
  {
    var trunk := TreeTrunk();
    var g0 := Gen(seed, trunk, []);
    var r := GenerateTree(t, seed);
    CountDepthAll(trunk, 0);
    CountDepthNone(trunk, 1);
    TreeGrowth(t, seed);
    assert trunk <= r.branches;
  }

  /** The crown `generateTree` grows on top of its trunk. */
  lemma TreeGrowth(t: Trig, seed: nat)
    ensures var g0, r := Gen(seed, TreeTrunk(), []), GenerateTree(t, seed);
      Extends(g0, r) && NewClustersOk(g0, r) && Crown(r.branches, 12) &&
      CountDepth(g0.branches, 1) + 6 <= CountDepth(r.branches, 1) <= CountDepth(g0.branches, 1) + 7 &&
      CountDepth(r.branches, 0) == CountDepth(g0.branches, 0)
  {
    var g0 := Gen(seed, TreeTrunk(), []);
    TopGrow(t, g0, 392.0, 390.0, -PI / 2.0, 600.0 * 0.15, 32.0, 12);
    var g1 := Grow(t, g0, 392.0, 390.0, -PI / 2.0, 600.0 * 0.15, 32.0, 1);
    MainCountRange(g1.seed);
    MainBranchesTop(t, Roll(g1), 0, MainCount(g1.seed), 12);
    var g2 := MainBranches(t, Roll(g1), 0, MainCount(g1.seed));
    SmallBranchesTop(t, g2, 0, 12);
    ClustersChain(g0, g1, g2);
    ClustersChain(g0, g2, SmallBranches(t, g2, 0));
  }
}
