/**
 * What `renderTreeToCache` and `drawFlowerCluster` (js/sakura-tree.js) decide
 * before any pixel is drawn: the stroke colour of each branch, the order in
 * which the flower clusters are painted, and which pattern set each uses.
 * The painting itself is a display list of `Op`s.
 */
module SakuraRender {
  import opened SakuraGenerator

  // ------------------------------------------------------------- stable sort

  /**
   * The two comparators `(a, b) => key(a) - key(b)` of interest: the key as
   * written, `a.layer || 1` (layer 0 counts as 1), and the layer itself, which
   * the code comment asks for (background, then middle, then foreground).
   */
  datatype Comparator = AsWritten | ByLayer

  function Key(cmp: Comparator, c: Cluster): int {
    match cmp
    case AsWritten => if c.layer == 0 then 1 else c.layer
    case ByLayer => c.layer
  }

  /** `s` with `c` placed after every element whose key is not greater than its own. */
  function Insert(cmp: Comparator, c: Cluster, s: seq<Cluster>): (r: seq<Cluster>)
    ensures |r| == |s| + 1 && multiset(r) == multiset(s) + multiset{c}
  {
    if s == [] then [c]
    else if Key(cmp, c) < Key(cmp, s[0]) then [c] + s
    else
      assert s == [s[0]] + s[1..];
      [s[0]] + Insert(cmp, c, s[1..])
  }

  /**
   * `Array.prototype.sort` with a comparator `Key(cmp, a) - Key(cmp, b)`: a stable sort
   * (as ECMAScript 2019 requires), written as insertion of each element, in
   * order, into the sorted prefix.
   */
  function StableSort(cmp: Comparator, s: seq<Cluster>): (r: seq<Cluster>)
    ensures |r| == |s|
  {
    if s == [] then [] else Insert(cmp, s[|s| - 1], StableSort(cmp, s[..|s| - 1]))
  }

  ghost predicate SortedBy(cmp: Comparator, s: seq<Cluster>) {
    forall i, j :: 0 <= i < j < |s| ==> Key(cmp, s[i]) <= Key(cmp, s[j])
  }

  /** The elements of `s` with key `k`, in their order in `s`. */
  function Select(cmp: Comparator, s: seq<Cluster>, k: int): seq<Cluster> {
    if s == [] then [] else (if Key(cmp, s[0]) == k then [s[0]] else []) + Select(cmp, s[1..], k)
  }

  lemma {:induction false} SelectAppend(cmp: Comparator, a: seq<Cluster>, b: seq<Cluster>, k: int)
    ensures Select(cmp, a + b, k) == Select(cmp, a, k) + Select(cmp, b, k)
  {
    if a == [] {
      assert a + b == b;
    } else {
      assert a + b == [a[0]] + (a[1..] + b);
      SelectCons(cmp, a[0], a[1..] + b, k);
      SelectAppend(cmp, a[1..], b, k);
      SelectHead(cmp, a, k);
      Assoc(Own(cmp, a[0], k), Select(cmp, a[1..], k), Select(cmp, b, k));
    }
  }

  lemma {:induction false} SelectNone(cmp: Comparator, s: seq<Cluster>, k: int)
    requires forall i :: 0 <= i < |s| ==> Key(cmp, s[i]) != k
    ensures Select(cmp, s, k) == []
  {
    if s != [] {
      SelectNone(cmp, s[1..], k);
    }
  }

  lemma {:induction false} InsertSorted(cmp: Comparator, c: Cluster, s: seq<Cluster>)
    requires SortedBy(cmp, s)
    ensures SortedBy(cmp, Insert(cmp, c, s))
  {
    if s != [] && Key(cmp, c) >= Key(cmp, s[0]) {
      var rest := Insert(cmp, c, s[1..]);
      InsertSorted(cmp, c, s[1..]);
      forall j | 0 <= j < |rest| ensures Key(cmp, s[0]) <= Key(cmp, rest[j]) {
        assert rest[j] in multiset(rest);
        if rest[j] != c {
          assert rest[j] in multiset(s[1..]);
          var m :| 0 <= m < |s[1..]| && s[1..][m] == rest[j];
          assert s[1..][m] == s[m + 1];
        }
      }
    }
  }

  /** `c` itself, if its key is `k`. */
  function Own(cmp: Comparator, c: Cluster, k: int): seq<Cluster> {
    if Key(cmp, c) == k then [c] else []
  }

  lemma SelectOne(cmp: Comparator, c: Cluster, k: int)
    ensures Select(cmp, [c], k) == Own(cmp, c, k)
  {
    assert Select(cmp, [c], k) == Own(cmp, c, k) + Select(cmp, [], k);
  }

  /** Inserting in front of a sorted sequence whose keys all exceed `c`'s. */
  lemma InsertSelectFront(cmp: Comparator, c: Cluster, s: seq<Cluster>, k: int)
    requires SortedBy(cmp, s) && s != [] && Key(cmp, c) < Key(cmp, s[0])
    ensures Select(cmp, Insert(cmp, c, s), k) == Select(cmp, s, k) + Own(cmp, c, k)
  {
    assert Insert(cmp, c, s) == [c] + s;
    assert ([c] + s)[1..] == s;
    if Key(cmp, c) == k {
      forall i | 0 <= i < |s| ensures Key(cmp, s[i]) != k {
        assert Key(cmp, s[0]) <= Key(cmp, s[i]);
      }
      SelectNone(cmp, s, k);
    }
  }

  lemma SelectCons(cmp: Comparator, x: Cluster, t: seq<Cluster>, k: int)
    ensures Select(cmp, [x] + t, k) == Own(cmp, x, k) + Select(cmp, t, k)
  {
    assert ([x] + t)[1..] == t;
  }

  /** An insertion that passes the head keeps the head's share of `Select` in front. */
  lemma InsertSelectAfter(cmp: Comparator, c: Cluster, s: seq<Cluster>, k: int)
    requires s != [] && Key(cmp, c) >= Key(cmp, s[0])
    requires Select(cmp, Insert(cmp, c, s[1..]), k) == Select(cmp, s[1..], k) + Own(cmp, c, k)
    ensures Select(cmp, Insert(cmp, c, s), k) == Select(cmp, s, k) + Own(cmp, c, k)
  {
    var rest := Insert(cmp, c, s[1..]);
    InsertPasses(cmp, c, s);
    SelectCons(cmp, s[0], rest, k);
    SelectHead(cmp, s, k);
    Assoc(Own(cmp, s[0], k), Select(cmp, s[1..], k), Own(cmp, c, k));
  }

  lemma InsertPasses(cmp: Comparator, c: Cluster, s: seq<Cluster>)
    requires s != [] && Key(cmp, c) >= Key(cmp, s[0])
    ensures Insert(cmp, c, s) == [s[0]] + Insert(cmp, c, s[1..])
  {
  }

  lemma SelectHead(cmp: Comparator, s: seq<Cluster>, k: int)
    requires s != []
    ensures Select(cmp, s, k) == Own(cmp, s[0], k) + Select(cmp, s[1..], k)
  {
  }

  lemma Assoc(a: seq<Cluster>, b: seq<Cluster>, c: seq<Cluster>)
    ensures a + (b + c) == (a + b) + c
  {
  }

  lemma {:induction false} InsertSelect(cmp: Comparator, c: Cluster, s: seq<Cluster>, k: int)
    requires SortedBy(cmp, s)
    ensures Select(cmp, Insert(cmp, c, s), k) == Select(cmp, s, k) + Own(cmp, c, k)
  {
    if s == [] {
      SelectOne(cmp, c, k);
    } else if Key(cmp, c) < Key(cmp, s[0]) {
      InsertSelectFront(cmp, c, s, k);
    } else {
      SortedTail(cmp, s);
      InsertSelect(cmp, c, s[1..], k);
      InsertSelectAfter(cmp, c, s, k);
    }
  }

  lemma SortedTail(cmp: Comparator, s: seq<Cluster>)
    requires SortedBy(cmp, s) && s != []
    ensures SortedBy(cmp, s[1..])
  {
    forall i, j | 0 <= i < j < |s| - 1 ensures Key(cmp, s[1..][i]) <= Key(cmp, s[1..][j]) {
      assert s[1..][i] == s[i + 1] && s[1..][j] == s[j + 1];
    }
  }

  /**
   * The sort is sorted by the key, a permutation of its input, and stable:
   * for every key value, the elements with that key keep their input order.
   * Those three facts determine the result.
   */
  lemma {:induction false} StableSortSpec(cmp: Comparator, s: seq<Cluster>)
    ensures var r := StableSort(cmp, s);
      SortedBy(cmp, r) && multiset(r) == multiset(s) &&
      forall k :: Select(cmp, r, k) == Select(cmp, s, k)
  {
    if s != [] {
      var init, c := s[..|s| - 1], s[|s| - 1];
      assert s == init + [c];
      StableSortSpec(cmp, init);
      InsertSorted(cmp, c, StableSort(cmp, init));
      forall k ensures Select(cmp, StableSort(cmp, s), k) == Select(cmp, s, k) {
        InsertSelect(cmp, c, StableSort(cmp, init), k);
        SelectAppend(cmp, init, [c], k);
        SelectOne(cmp, c, k);
      }
    }
  }

  // -------------------------------------------------------------- draw order


  /** The order the clusters are painted in, as written. */
  function DrawOrderAsWritten(cs: seq<Cluster>): seq<Cluster> {
    StableSort(AsWritten, cs)
  }

  /** The intended painting order. */
  function DrawOrder(cs: seq<Cluster>): seq<Cluster> {
    StableSort(ByLayer, cs)
  }

  ghost predicate Layered(cs: seq<Cluster>) {
    forall i :: 0 <= i < |cs| ==> 0 <= cs[i].layer <= 2
  }

  /**
   * As written, foreground clusters are still painted after all the others,
   * and within the foreground, and within the merged background-and-middle
   * group, generation order is kept.
   */
  lemma ForegroundPaintedLast(cs: seq<Cluster>)
    requires Layered(cs)
    ensures var r := DrawOrderAsWritten(cs);
      multiset(r) == multiset(cs) &&
      (forall i, j :: 0 <= i < j < |r| && r[i].layer == 2 ==> r[j].layer == 2) &&
      Select(AsWritten, r, 1) == Select(AsWritten, cs, 1) &&
      Select(AsWritten, r, 2) == Select(AsWritten, cs, 2)
  {
    var r := DrawOrderAsWritten(cs);
    StableSortSpec(AsWritten, cs);
    forall i, j | 0 <= i < j < |r| && r[i].layer == 2 ensures r[j].layer == 2 {
      assert r[j] in multiset(cs);
      var m :| 0 <= m < |cs| && cs[m] == r[j];
      assert Key(AsWritten, r[i]) <= Key(AsWritten, r[j]);
    }
  }

  /**
   * As written, a background cluster generated after a middle one is painted
   * over it: the two share the key 1 and the stable sort keeps them in
   * generation order.
   */
  lemma BackgroundOverMiddle()
    ensures var middle := Cluster(100.0, 100.0, 9.0, true, 0.0, 0, 0.7, 0, 1);
      var background := Cluster(100.0, 100.0, 7.0, true, 0.0, 0, 0.5, 0, 0);
      DrawOrderAsWritten([middle, background]) == [middle, background] &&
      DrawOrder([middle, background]) == [background, middle]
  {
    var middle := Cluster(100.0, 100.0, 9.0, true, 0.0, 0, 0.7, 0, 1);
    var background := Cluster(100.0, 100.0, 7.0, true, 0.0, 0, 0.5, 0, 0);
    assert [middle, background][..1] == [middle] && [middle][..0] == [];
    assert StableSort(AsWritten, [middle]) == [middle];
    assert StableSort(ByLayer, [middle]) == [middle];
    assert Insert(AsWritten, background, [middle]) == [middle] + Insert(AsWritten, background, []);
  }

  /** The intended order paints layer by layer, each layer in generation order. */
  lemma DrawOrderLayered(cs: seq<Cluster>)
    ensures var r := DrawOrder(cs);
      multiset(r) == multiset(cs) &&
      (forall i, j :: 0 <= i < j < |r| ==> r[i].layer <= r[j].layer) &&
      (forall layer :: Select(ByLayer, r, layer) == Select(ByLayer, cs, layer))
  {
    StableSortSpec(ByLayer, cs);
  }

  // ------------------------------------------------------------------- tiers

  /** The pattern set `drawFlowerCluster` paints a cluster with. */
  datatype Tier = Background | Middle | Foreground

  /** `layer === 2` picks the foreground set, `layer === 1` the middle set, anything else the background set. */
  function TierOf(layer: int): (t: Tier)
    ensures t == Foreground <==> layer == 2
    ensures t == Middle <==> layer == 1
    ensures t == Background <==> layer != 1 && layer != 2
  {
    if layer == 2 then Foreground else if layer == 1 then Middle else Background
  }

  /** Each set holds one pattern per colour of the palette. */
  const PatternsPerTier: nat := 4

  /** How far back a tier is painted: background 0, middle 1, foreground 2. */
  function Rank(t: Tier): int {
    match t
    case Background => 0
    case Middle => 1
    case Foreground => 2
  }

  lemma TierRankIsLayer(layer: int)
    requires 0 <= layer <= 2
    ensures Rank(TierOf(layer)) == layer
  {
  }

  // ---------------------------------------------------------------- strokes

  /** `35 + depth * 6`: deeper branches are lighter brown. */
  function Shade(depth: int): int {
    35 + depth * 6
  }

  datatype Rgb = Rgb(r: int, g: int, b: int)

  /** The stroke colour `rgb(shade, shade - 8, shade - 15)` of a branch at `depth`. */
  function BranchColour(depth: int): (c: Rgb)
    ensures c.r - c.g == 8 && c.r - c.b == 15
    ensures 0 <= depth <= 8 ==> 20 <= c.b && c.r <= 83
  {
    var s := Shade(depth);
    Rgb(s, s - 8, s - 15)
  }

  /** Deeper branches are strictly lighter in every channel. */
  lemma DeeperIsLighter(d1: int, d2: int)
    requires d1 < d2
    ensures BranchColour(d1).r < BranchColour(d2).r
    ensures BranchColour(d1).g < BranchColour(d2).g
    ensures BranchColour(d1).b < BranchColour(d2).b
  {
  }

  // ------------------------------------------------------------ display list

  /** What is painted on the offscreen canvas: the scale transform, branch strokes and flower sprites. */
  datatype Op =
    | Scale(sx: real, sy: real)
    | Stroke(x1: real, y1: real, x2: real, y2: real, lineWidth: real, colour: Rgb)
    | Sprite(tier: Tier, cluster: Cluster)

  function Strokes(bs: seq<Branch>): (ops: seq<Op>)
    ensures |ops| == |bs|
    ensures forall i :: 0 <= i < |bs| ==>
      ops[i] == Stroke(bs[i].x1, bs[i].y1, bs[i].x2, bs[i].y2, bs[i].width, BranchColour(bs[i].depth))
  {
    seq(|bs|, i requires 0 <= i < |bs| =>
      Stroke(bs[i].x1, bs[i].y1, bs[i].x2, bs[i].y2, bs[i].width, BranchColour(bs[i].depth)))
  }

  function Sprites(cs: seq<Cluster>): (ops: seq<Op>)
    ensures |ops| == |cs|
    ensures forall i :: 0 <= i < |cs| ==> ops[i] == Sprite(TierOf(cs[i].layer), cs[i])
  {
    seq(|cs|, i requires 0 <= i < |cs| => Sprite(TierOf(cs[i].layer), cs[i]))
  }

  /** The clusters a run of ops paints, in painting order. */
  function Painted(ops: seq<Op>): seq<Cluster> {
    if ops == [] then [] else (if ops[0].Sprite? then [ops[0].cluster] else []) + Painted(ops[1..])
  }

  /** A sprite run paints exactly the clusters it was made from. */
  lemma {:induction false} PaintedSprites(cs: seq<Cluster>)
    ensures Painted(Sprites(cs)) == cs
  {
    if cs != [] {
      assert Sprites(cs)[1..] == Sprites(cs[1..]);
      PaintedSprites(cs[1..]);
    }
  }

  /**
   * What `renderTreeToCache` paints, as written: the scale `(sx, sy)` of the
   * design frame, every branch in generation order, then the clusters sorted
   * by `a.layer || 1`.
   */
  function Raster(bs: seq<Branch>, cs: seq<Cluster>, sx: real, sy: real): seq<Op> {
    [Scale(sx, sy)] + Strokes(bs) + Sprites(DrawOrderAsWritten(cs))
  }

  /** Painting the same tree at another scale changes the scale and nothing else. */
  lemma RasterRescale(bs: seq<Branch>, cs: seq<Cluster>, sx: real, sy: real, sx0: real, sy0: real)
    ensures var ops, ops0 := Raster(bs, cs, sx, sy), Raster(bs, cs, sx0, sy0);
      |ops| == |ops0| && ops[0] == Scale(sx, sy) && ops[1..] == ops0[1..]
  {
    var rest := Strokes(bs) + Sprites(DrawOrderAsWritten(cs));
    assert Raster(bs, cs, sx, sy) == [Scale(sx, sy)] + rest;
    assert Raster(bs, cs, sx0, sy0) == [Scale(sx0, sy0)] + rest;
    assert ([Scale(sx, sy)] + rest)[1..] == rest;
    assert ([Scale(sx0, sy0)] + rest)[1..] == rest;
  }

  /**
   * The cache as written: the scale first, then one stroke per branch in
   * order, then one sprite per cluster. The sprites paint every cluster once;
   * foreground sprites come after all the others; the background and middle
   * clusters, which share a key, are painted in generation order, and so are
   * the foreground ones.
   */
  lemma RasterShape(bs: seq<Branch>, cs: seq<Cluster>, sx: real, sy: real)
    requires Layered(cs)
    ensures var ops := Raster(bs, cs, sx, sy);
      |ops| == 1 + |bs| + |cs| && ops[0] == Scale(sx, sy) &&
      (forall i :: 0 <= i < |bs| ==> ops[1 + i].Stroke? && ops[1 + i].colour == BranchColour(bs[i].depth)) &&
      (forall i :: 1 + |bs| <= i < |ops| ==> ops[i].Sprite?) &&
      (forall i, j :: 1 + |bs| <= i < j < |ops| && ops[i].tier == Foreground ==> ops[j].tier == Foreground) &&
      multiset(Painted(ops[1 + |bs|..])) == multiset(cs) &&
      Select(AsWritten, Painted(ops[1 + |bs|..]), 1) == Select(AsWritten, cs, 1) &&
      Select(AsWritten, Painted(ops[1 + |bs|..]), 2) == Select(AsWritten, cs, 2)
  {
    var s := Sprites(DrawOrderAsWritten(cs));
    SpritesAsWritten(cs);
    Sections(bs, s, sx, sy);
    assert Raster(bs, cs, sx, sy) == [Scale(sx, sy)] + Strokes(bs) + s;
  }

  /** A cache made of the scale, the strokes of `bs` and a sprite run `s` whose foreground comes last. */
  lemma Sections(bs: seq<Branch>, s: seq<Op>, sx: real, sy: real)
    requires forall i :: 0 <= i < |s| ==> s[i].Sprite?
    requires forall i, j :: 0 <= i < j < |s| && s[i].tier == Foreground ==> s[j].tier == Foreground
    ensures var ops := [Scale(sx, sy)] + Strokes(bs) + s;
      |ops| == 1 + |bs| + |s| && ops[0] == Scale(sx, sy) && ops[1 + |bs|..] == s &&
      (forall i :: 0 <= i < |bs| ==> ops[1 + i].Stroke? && ops[1 + i].colour == BranchColour(bs[i].depth)) &&
      (forall i :: 1 + |bs| <= i < |ops| ==> ops[i].Sprite?) &&
      (forall i, j :: 1 + |bs| <= i < j < |ops| && ops[i].tier == Foreground ==> ops[j].tier == Foreground)
  {
    var ops := [Scale(sx, sy)] + Strokes(bs) + s;
    forall i | 0 <= i < |bs| ensures ops[1 + i].Stroke? && ops[1 + i].colour == BranchColour(bs[i].depth) {
      assert ops[1 + i] == Strokes(bs)[i];
    }
    forall i | 1 + |bs| <= i < |ops| ensures ops[i].Sprite? {
      assert ops[i] == s[i - 1 - |bs|];
    }
    forall i, j | 1 + |bs| <= i < j < |ops| && ops[i].tier == Foreground ensures ops[j].tier == Foreground {
      assert ops[i] == s[i - 1 - |bs|] && ops[j] == s[j - 1 - |bs|];
    }
  }

  /** The sprite run as written: every cluster once, the foreground last, each key group in generation order. */
  lemma SpritesAsWritten(cs: seq<Cluster>)
    requires Layered(cs)
    ensures var s := Sprites(DrawOrderAsWritten(cs));
      |s| == |cs| && (forall i :: 0 <= i < |s| ==> s[i].Sprite?) &&
      (forall i, j :: 0 <= i < j < |s| && s[i].tier == Foreground ==> s[j].tier == Foreground) &&
      multiset(Painted(s)) == multiset(cs) &&
      Select(AsWritten, Painted(s), 1) == Select(AsWritten, cs, 1) &&
      Select(AsWritten, Painted(s), 2) == Select(AsWritten, cs, 2)
  {
    var r := DrawOrderAsWritten(cs);
    ForegroundPaintedLast(cs);
    assert |r| == |cs| by {
      assert |multiset(r)| == |multiset(cs)|;
    }
    var s := Sprites(r);
    PaintedSprites(r);
    forall i, j | 0 <= i < j < |s| && s[i].tier == Foreground ensures s[j].tier == Foreground {
      assert r[i] in multiset(cs) && r[j] in multiset(cs);
      var m :| 0 <= m < |cs| && cs[m] == r[i];
      var n :| 0 <= n < |cs| && cs[n] == r[j];
    }
  }

  /** The painting order the code comment asks for: the same cache with the clusters sorted by `layer`. */
  function LayeredRaster(bs: seq<Branch>, cs: seq<Cluster>, sx: real, sy: real): seq<Op> {
    [Scale(sx, sy)] + Strokes(bs) + Sprites(DrawOrder(cs))
  }

  /**
   * With the intended order the sprites go from back to front: the tiers
   * never decrease along the cache.
   */
  lemma LayeredRasterShape(bs: seq<Branch>, cs: seq<Cluster>, sx: real, sy: real)
    requires Layered(cs)
    ensures var ops := LayeredRaster(bs, cs, sx, sy);
      |ops| == 1 + |bs| + |cs| && ops[0] == Scale(sx, sy) &&
      (forall i :: 0 <= i < |bs| ==> ops[1 + i].Stroke? && ops[1 + i].colour == BranchColour(bs[i].depth)) &&
      (forall i :: 1 + |bs| <= i < |ops| ==> ops[i].Sprite?) &&
      (forall i, j :: 1 + |bs| <= i < j < |ops| ==> Rank(ops[i].tier) <= Rank(ops[j].tier))
  {
    var r := DrawOrder(cs);
    var ops := LayeredRaster(bs, cs, sx, sy);
    DrawOrderLayered(cs);
    assert |r| == |cs| by {
      assert |multiset(r)| == |multiset(cs)|;
    }
    forall i | 0 <= i < |bs| ensures ops[1 + i] == Strokes(bs)[i] {
    }
    forall i, j | 1 + |bs| <= i < j < |ops| ensures Rank(ops[i].tier) <= Rank(ops[j].tier) {
      var a, b := i - 1 - |bs|, j - 1 - |bs|;
      assert ops[i] == Sprites(r)[a] && ops[j] == Sprites(r)[b];
      assert r[a] in multiset(cs) && r[b] in multiset(cs);
      var m :| 0 <= m < |cs| && cs[m] == r[a];
      var n :| 0 <= n < |cs| && cs[n] == r[b];
      TierRankIsLayer(r[a].layer);
      TierRankIsLayer(r[b].layer);
    }
  }
}
