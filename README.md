# Sakura blog front end, modelled in Dafny

This project models the behaviour of the blog's front-end scripts and proves properties of that model:

- **The procedural cherry tree** (`js/sakura-tree.js`). This covers:
  - the seeded linear congruential generator;
  - the recursive branch generator and its flower clusters;
  - the cached rendering: the design-frame scale, depth-shaded branches, then the flower sprites in the code's sort order;
  - the falling-petal pool;
  - the handlers that rebuild the tree on a resize or a theme change.
- **The two mini-games** (`js/games.js`):
  - *Sakura catch*: a basket, falling petals, a score and three lives.
  - *Memory match*: sixteen cards shuffled by Fisher–Yates, turned two at a time.
- **The three blog-list pagination scripts** (`js/pagination.js`, `js/pagination-simple.js`, `js/pagination-final.js`).
- **The device tier detection** (`js/performance-config.js`).
- **Parts of `js/main.js`:**
  - the theme switcher over `localStorage` and the root `data-theme` attribute;
  - the game category filter;
  - the leaderboard tabs;
  - the falling-blossom container capped at 100 children;
  - the typewriter effect.

## How the browser is represented

- **Values, objects and loops.** Pure computations are Dafny functions. Objects whose fields the scripts update are Dafny classes:
  - `SakuraTree`, `SakuraCatchGame`, `MemoryMatchGame`;
  - the pagers, the theme switcher, the category filter, the leaderboard, the blossom container and the typewriter.

  Their methods carry the loops of the source and are proved equal to the specification functions. Properties are then proved about those functions.
- **DOM lists** (`.blog-item`, `.theme-option`, `.category-filter`, …) are arrays or sequences of the one attribute or class each script reads or writes.
- **Randomness and trigonometry.**
  - `Math.random()` values are inputs: sequences or parameters in `[0, 1)`.
  - `Math.cos` and `Math.sin` are the two functions of a `Trig` parameter. Every geometric property holds whatever they compute.
- **Numbers.** JavaScript numbers are `real`s, except integer quantities (counts, indices, pages, seeds), which are `int`s.
- **Timers and events.** `setTimeout`, `setInterval`, `requestAnimationFrame` and event listeners become one method call per firing.
- **Errors.** A `TypeError` or `RangeError` the scripts can throw is a result flag (`ok`). It is never a precondition.

The modules are:

| module | file | models |
|---|---|---|
| `JsValues` | js_values.dfy | `Option` and the `x \|\| default` idiom |
| `PerformanceConfig` | performance_config.dfy | `isLowEnd`, `getConfig`, `apply` |
| `SakuraRandom` | sakura_random.dfy | `seededRandom` |
| `SakuraGenerator` | sakura_generator.dfy | `drawTrunk`, `growBranch`, `generateTree` as functions of the generator state |
| `SakuraShape` | sakura_shape.dfy | what the generated tree looks like, for every seed |
| `SakuraRender` | sakura_render.dfy | the stable cluster sort, the sprite tiers, the branch colours, the display list |
| `SakuraPetals` | sakura_petals.dfy | the petal pool and one frame of petal motion |
| `SakuraCanvas` | sakura_tree.dfy | the `SakuraTree` class |
| `CatchGame` | catch_game.dfy | `SakuraCatchGame` |
| `MemoryGame` | memory_game.dfy | `MemoryMatchGame` |
| `Paging` | paging.dfy | the page arithmetic and the link bar shared by the pagination scripts |
| `Pagination`, `PaginationSimple`, `PaginationFinal` | pagination*.dfy | the three scripts |
| `Theme` | theme.dfy | the theme switcher of `js/main.js` |
| `PageEffects` | page_effects.dfy | the filter, tabs, blossom cap and typewriter of `js/main.js` |

## Model

| member | source | states |
|---|---|---|
| `JsValues.StringOr` | js/main.js:613-614 | `s \|\| d` for a string: the stored value when it is present and non-empty, the default otherwise |
| `JsValues.IntOr` | js/performance-config.js:9 | `n \|\| d` for a number: `d` exactly when `n` is missing or 0 |
| `JsValues.RealOr` | js/performance-config.js:15 | the same for a fractional number such as `deviceMemory` |
| `PerformanceConfig.Canon` | js/performance-config.js:12 | on ASCII, the `/i` flag folds lower-case letters to upper case and keeps every other character; since `/i` never folds a non-ASCII character onto an ASCII one, this decides the same matches against the all-ASCII mobile words |
| `PerformanceConfig.ContainsFoldedIsSearch` | js/performance-config.js:12 | the scan used for the mobile test is true iff the word occurs case-insensitively at some position of the user agent |
| `PerformanceConfig.GetConfig` | js/performance-config.js:21-52 | petals 15/30, fps 30/60, particles 30/50, and all three animation switches off exactly on a low-end device |
| `PerformanceConfig.Apply` | js/performance-config.js:55-68 | the stored config is `getConfig()` for the detected tier; `low-end-device` is added to the root classes only on a low-end device |
| `PerformanceConfig.MissingCoresIsLowEnd` | js/performance-config.js:9-17 | a missing or zero `hardwareConcurrency` defaults to 2 cores, so the device is low-end |
| `PerformanceConfig.MobileWordIsLowEnd` | js/performance-config.js:12-17 | any of Android/webOS/iPhone/iPad/iPod/BlackBerry anywhere in the user agent, in any letter case, makes the device low-end |
| `PerformanceConfig.DesktopIsNotLowEnd` | js/performance-config.js:7-18 | more than 2 cores, at least 4 GB and no mobile word: the device is not low-end |
| `PerformanceConfig.LowEndIsCheaper` | js/performance-config.js:24-51 | the low-end configuration asks for fewer petals, frames and particles and longer thresholds and delays, and turns the tree sway off |
| `Paging.TotalPages` | js/pagination.js:25 | `Math.ceil(n / 5)`: the fewest pages of 5 that hold `n` posts |
| `Paging.SliceBound` | js/pagination.js:40 | how `Array.prototype.slice` clamps one bound, negative bounds counting from the end |
| `Paging.SliceRange` | js/pagination.js:38-40 | the copied range of `slice(start, end)` is ordered and inside the array |
| `Paging.SliceIsPage` | js/pagination.js:38-44 | for page >= 1 the slice of pagination.js selects exactly the posts of that page |
| `Paging.EveryPostOnOnePage` | js/pagination-simple.js:33-42 | every post lies on exactly one page, page `i / 5 + 1`, and that page exists |
| `Paging.PageSize` | js/pagination-simple.js:33-34 | an existing page holds between 1 and 5 posts, `min(5, n - start)` |
| `Paging.PastLastPageIsEmpty` | js/pagination-simple.js:33-42 | a page beyond the last shows no post |
| `Paging.BarShape` | js/pagination.js:63-80 | the bar is: a previous link iff page > 1; the numbers 1..total with only the current one active; a next link iff page < total |
| `Paging.OneActiveLink` | js/pagination.js:69-75 | exactly one link is active when the page exists, none otherwise |
| `Paging.BarTargetsInRange` | js/pagination.js:63-80 | from an existing page every link of the bar leads to an existing page |
| `Pagination.Pager.constructor` | js/pagination.js:10-99 | without `.blog-main` or posts nothing is styled; otherwise page 1 is shown and its bar built |
| `Pagination.Pager.ShowPage` | js/pagination.js:29-54 | every post hidden, then the slice shown as grid, so a post shows iff it is on the page; the bar rebuilt if `#pagination` exists |
| `Pagination.Pager.UpdatePagination` | js/pagination.js:57-94 | the bar becomes `Bar(page, total)` with clickable numbers, or stays as it was without a `#pagination` element |
| `Pagination.Pager.Click` | js/pagination.js:86-92 | a link shows its `data-page` unless that is 0 or the current page, in which case nothing changes |
| `PaginationSimple.Pager.constructor` | js/pagination-simple.js:2-87 | without the two elements or posts nothing happens; otherwise page 1 is shown with its bar |
| `PaginationSimple.Pager.ShowPage` | js/pagination-simple.js:24-49 | the posts of the page shown, all others hidden, the bar rebuilt; a page below 1 throws a TypeError after everything was hidden |
| `PaginationSimple.Pager.RenderPagination` | js/pagination-simple.js:51-78 | the bar becomes `Bar(page, totalPages)` with the active number not clickable |
| `PaginationSimple.Pager.GoToPage` | js/pagination-simple.js:81-84 | the page becomes current and is shown; a page past the last hides every post and marks no link |
| `PaginationFinal.Pager.constructor` | js/pagination-final.js:2-85 | every post gets its `data-index`, then page 1 is shown with its bar |
| `PaginationFinal.Pager.ShowPage` | js/pagination-final.js:29-54 | each post is shown as flex iff its index lies in the page's range, hidden otherwise |
| `PaginationFinal.Pager.RenderPagination` | js/pagination-final.js:56-76 | the bar becomes `Bar(page, totalPages)` with the active number not clickable |
| `PaginationFinal.Pager.GoToPage` | js/pagination-final.js:78-81 | the page becomes current and shown; exactly one link is active iff the page exists |
| `PaginationFinal.VisibleOnOnePage` | js/pagination-final.js:32-50 | a post visible on two pages means the two pages are one existing page |
| `SakuraRandom.NextSeed` | js/sakura-tree.js:216 | the next state is always below the modulus 233280 |
| `SakuraRandom.Draw` | js/sakura-tree.js:215-218 | `seededRandom()` returns a value in `[0, 1)`: the new state over the modulus |
| `SakuraRandom.SeedStaysInRange` | js/sakura-tree.js:215-218 | after any number of calls the state stays in `[0, 233280)` |
| `SakuraRandom.NextSeedInjective` | js/sakura-tree.js:216 | the generator step never maps two states in range to the same state (9301 is invertible modulo 233280) |
| `SakuraShape.TrunkJoins` | js/sakura-tree.js:285-304 | the trunk is 12 depth-0 segments, joined end to start, from (400, 600) to (392, 390) |
| `SakuraShape.TrunkTapers` | js/sakura-tree.js:285-304 | the trunk is 70 wide at the foot, and each segment is narrower than the one below and wider than 45 |
| `SakuraShape.FlowerShape` | js/sakura-tree.js:329-355 | one flower appends one cluster and no branch, taking 7 draws for a foreground flower and 8 otherwise |
| `SakuraShape.MakeClusterOk` | js/sakura-tree.js:337-354 | each cluster has the size range, opacity range and layer of its tier, a rotation in [0, 2π) and a pattern index 0..3 |
| `SakuraShape.FlowersShape` | js/sakura-tree.js:327-356 | the flower loop appends exactly `num - f` well-formed clusters and no branch |
| `SakuraShape.BloomShape` | js/sakura-tree.js:321-357 | a branch at depth 0 to 3 gets no flower; otherwise it gets none (15% draw) or exactly 2, 3 or 4 by depth |
| `SakuraShape.GrowRoot` | js/sakura-tree.js:307-318 | a call past depth 9 or shorter than 6 changes nothing; any other pushes its own segment first |
| `SakuraShape.GrowShape` | js/sakura-tree.js:307-385 | a `growBranch` call only appends; each branch is at most depth 9, at least 6 long, width × 0.7 per level; clusters are well formed |
| `SakuraShape.ChildrenShape` | js/sakura-tree.js:370-383 | the fan-out loop appends only branches grown one level deeper at 70% width |
| `SakuraShape.ChildShape` | js/sakura-tree.js:370-383 | one child appends only branches grown one level deeper at 70% width |
| `SakuraShape.GrowLinked` | js/sakura-tree.js:307-385 | every branch a call pushes after its own segment starts at the end of a branch one level shallower |
| `SakuraShape.ChildrenLinked` | js/sakura-tree.js:370-383 | children grown from a parent's end link to that parent or to their own ancestors |
| `SakuraShape.ChildLinked` | js/sakura-tree.js:370-383 | one child's subtree is linked to the parent it grew from |
| `SakuraShape.RootLinked` | js/sakura-tree.js:307-385 | a call started at the end of a shallower branch links everything it pushes |
| `SakuraShape.TopGrow` | js/sakura-tree.js:307-385 | a drawn first-level call adds exactly one first-level branch and keeps the crown linked |
| `SakuraShape.GrowFirst` | js/sakura-tree.js:307-318 | a call that draws pushes its own segment, at its own depth, first |
| `SakuraShape.TopCrown` | js/sakura-tree.js:307-385 | a first-level call keeps every crown branch at depth 1..8 and linked to its parent |
| `SakuraShape.MainBranchTop` | js/sakura-tree.js:258-268 | a main branch is long enough to draw, so it adds one first-level branch |
| `SakuraShape.MainBranchesTop` | js/sakura-tree.js:256-269 | the main-branch loop adds exactly `num` first-level branches |
| `SakuraShape.SmallBranchTop` | js/sakura-tree.js:271-280 | a small branch (108 long) adds one first-level branch |
| `SakuraShape.SmallBranchesTop` | js/sakura-tree.js:271-281 | the small-branch loop adds exactly two first-level branches |
| `SakuraShape.MainCountRange` | js/sakura-tree.js:256 | there are 3 or 4 main branches |
| `SakuraShape.TreeShape` | js/sakura-tree.js:238-282 | for every seed: the 12 trunk segments first, then a linked crown of depth 1..8, 6 or 7 first-level branches, and well-formed flowers |
| `SakuraShape.TreeGrowth` | js/sakura-tree.js:238-282 | the crown only appends to the trunk and adds 6 or 7 first-level branches and no trunk segment |
| `SakuraRender.Insert` | js/sakura-tree.js:437 | one insertion step of the stable sort keeps every element and adds the inserted one |
| `SakuraRender.StableSortSpec` | js/sakura-tree.js:437 | the sort is a permutation, sorted by key, and keeps generation order among equal keys |
| `SakuraRender.ForegroundPaintedLast` | js/sakura-tree.js:437 | with the key as written, foreground clusters still come last, after all the others |
| `SakuraRender.BackgroundOverMiddle` | js/sakura-tree.js:436-437 | with the key as written, a middle cluster generated before a background cluster is painted under it |
| `SakuraRender.DrawOrderLayered` | js/sakura-tree.js:436-437 | the intended order paints all background, then all middle, then all foreground clusters, each in generation order |
| `SakuraRender.TierOf` | js/sakura-tree.js:449-458 | layer 2 selects foreground sprites, layer 1 middle, anything else background |
| `SakuraRender.TierRankIsLayer` | js/sakura-tree.js:449-458 | for layers 0..2 the sprite tier matches the layer |
| `SakuraRender.BranchColour` | js/sakura-tree.js:424-425 | the stroke is `rgb(s, s-8, s-15)`; at depths 0..8 every channel is between 20 and 83 |
| `SakuraRender.DeeperIsLighter` | js/sakura-tree.js:424-425 | a deeper branch is strictly lighter in every channel |
| `SakuraRender.Strokes` | js/sakura-tree.js:423-433 | each branch is stroked once, in order, with its own colour and width |
| `SakuraRender.Sprites` | js/sakura-tree.js:439-442 | each cluster is painted once, in order, with the sprite tier of its layer |
| `SakuraRender.PaintedSprites` | js/sakura-tree.js:439-442 | a sprite run paints exactly the clusters it was made from, in order |
| `SakuraRender.RasterShape` | js/sakura-tree.js:412-445 | the cache as written: the scale first, one stroke per branch in order with its depth colour, then one sprite per cluster; every cluster is painted once, foreground sprites come after all others, and background-and-middle and foreground each keep generation order |
| `SakuraRender.RasterRescale` | js/sakura-tree.js:412-421 | painting the same tree at another scale changes the leading scale op and nothing else |
| `SakuraRender.LayeredRasterShape` | js/sakura-tree.js:436-437 | with the order the comment asks for, the sprite tiers never decrease: background, then middle, then foreground |
| `SakuraPetals.Pool` | js/sakura-tree.js:387-409 | the pool holds exactly the requested number of petals |
| `SakuraPetals.MakePetalFresh` | js/sakura-tree.js:392-407 | a new petal's size, speed, sway, rotation speed, opacity and drift lie in their source ranges |
| `SakuraPetals.MakePetalAbove` | js/sakura-tree.js:393-394 | a new petal starts within the canvas width and above the canvas |
| `SakuraPetals.PoolFresh` | js/sakura-tree.js:387-409 | every petal of the pool is fresh and starts above the canvas |
| `SakuraPetals.StepAll` | js/sakura-tree.js:514-528 | a frame moves every petal and keeps the pool's size |
| `SakuraPetals.StepAllBounds` | js/sakura-tree.js:514-528 | after a frame every petal is inside the wrap band `[-50, w+50]` horizontally and below `h+50` |
| `SakuraPetals.StepPetalBounds` | js/sakura-tree.js:516-527 | the wrap rules put one petal back into the band |
| `SakuraPetals.StepPetalReset` | js/sakura-tree.js:522-525 | a petal that fell below the bottom restarts at y = -50 within the canvas width |
| `SakuraPetals.StepPetalMoves` | js/sakura-tree.js:516-519 | a petal that stays on screen moves by exactly its fall, sway and wind |
| `SakuraPetals.ColourIndex` | js/sakura-tree.js:535 | the palette index is always one of the four colours |
| `SakuraPetals.ThemeColors` | js/sakura-tree.js:59-69 | the palette is four pinks, whatever the theme |
| `SakuraPetals.ThemeDoesNotMatter` | js/sakura-tree.js:59-69 | a petal gets the same colour under every theme |
| `SakuraCanvas.CurrentTheme` | js/sakura-tree.js:54-56 | the `data-theme` attribute, or `cherry` when missing or empty; never empty |
| `SakuraCanvas.PerformanceTiers` | js/sakura-tree.js:389 | with the applied config: a low-end device gets 15 petals and no sway, any other 30 and sway; no config gives 30 and sway |
| `SakuraCanvas.SakuraTree.constructor` | js/sakura-tree.js:7-51 | without a canvas nothing is set up; either way the seed is 12345; with a canvas the tree is the generator's tree of that seed, rendered to the cache, and the first `animate()` frame has run: wind time 0.01 and the fresh petal pool stepped once |
| `SakuraCanvas.SakuraTree.Mount` | js/sakura-tree.js:27-50 | size, tree of the seed, cache, a fresh petal pool, then one frame: the wind time advances by 0.01 and every petal of the pool moves once |
| `SakuraCanvas.SakuraTree.SeededRandom` | js/sakura-tree.js:215-218 | one generator step; the value returned is the new state over the modulus |
| `SakuraCanvas.SakuraTree.Resize` | js/sakura-tree.js:220-236 | the canvas takes the element's size, and the scale maps the 800 × 600 design frame onto it |
| `SakuraCanvas.SakuraTree.DrawTrunk` | js/sakura-tree.js:285-304 | the loop appends exactly the 12 trunk segments |
| `SakuraCanvas.SakuraTree.PushFlower` | js/sakura-tree.js:327-355 | one pass of the flower loop is `Flower` of the specification |
| `SakuraCanvas.SakuraTree.GrowBranch` | js/sakura-tree.js:307-385 | the recursive method leaves exactly the state `Grow` specifies |
| `SakuraCanvas.SakuraTree.Blossom` | js/sakura-tree.js:321-357 | the flowering part leaves exactly the state `Bloom` specifies |
| `SakuraCanvas.SakuraTree.FanOut` | js/sakura-tree.js:360-384 | the branching part draws 2 or 3 children, the extra draw only at depths 2..4 |
| `SakuraCanvas.SakuraTree.GrowChild` | js/sakura-tree.js:370-383 | one pass of the fan-out loop is `Child` of the specification |
| `SakuraCanvas.SakuraTree.DrawChild` | js/sakura-tree.js:371-380 | the two draws of a child give its angle offset and a length of 65–80% of the parent's |
| `SakuraCanvas.SakuraTree.DrawOffset` | js/sakura-tree.js:371-376 | the first draw of a child gives `Offset`: two children leave on opposite sides, three fan around the parent direction |
| `SakuraGenerator.OffsetRange` | js/sakura-tree.js:371-376 | of two children the first turns 0.4–0.7 one way and the second 0.4–0.7 the other; of three the middle keeps the parent direction and the outer two turn 0.45–0.65 to opposite sides |
| `SakuraGenerator.ChildLengthRange` | js/sakura-tree.js:379 | a child is between 65% and 80% as long as its parent |
| `SakuraCanvas.SakuraTree.GenerateTree` | js/sakura-tree.js:238-282 | the method leaves exactly `GenerateTree(randomSeed)` of the specification |
| `SakuraCanvas.SakuraTree.GrowMainBranches` | js/sakura-tree.js:256-269 | the main-branch loop equals `MainBranches` |
| `SakuraCanvas.SakuraTree.GrowSmallBranches` | js/sakura-tree.js:271-281 | the small-branch loop equals `SmallBranches` |
| `SakuraCanvas.SakuraTree.GrowMainBranch` | js/sakura-tree.js:258-268 | one main branch: three draws for its height, lean and length |
| `SakuraCanvas.SakuraTree.GrowSmallBranch` | js/sakura-tree.js:272-280 | one small branch: one draw for its lean |
| `SakuraCanvas.SakuraTree.RenderTreeToCache` | js/sakura-tree.js:412-445 | the cache is the scale `(scaleX, scaleY)`, every branch stroke, then the clusters sorted by `layer \|\| 1` (`Raster`) |
| `SakuraCanvas.SakuraTree.InitFallingPetals` | js/sakura-tree.js:387-409 | a fresh pool of `PetalCount(perf)` petals, each from twelve consecutive random values |
| `SakuraCanvas.SakuraTree.DrawFallingPetals` | js/sakura-tree.js:508-576 | every petal is moved in place as `StepAll` says, and painted in the palette colour of its position |
| `SakuraCanvas.SakuraTree.Animate` | js/sakura-tree.js:578-612 | the wind time advances by 0.01, the wind strength follows it, the tree sways iff configured, and the petals move |
| `SakuraCanvas.SakuraTree.Rebuild` | js/sakura-tree.js:37-42 | resetting the seed and regenerating gives the tree of the object's fixed seed (12345 from the constructor, never reassigned) and its cache |
| `SakuraCanvas.SakuraTree.HoldsSeedTree` | js/sakura-tree.js:18-42 | a set-up tree object holds in its fields exactly the branches and clusters the generator grows from its seed |
| `SakuraCanvas.SakuraTree.Regrow` | js/sakura-tree.js:92-101 | regenerating from the fixed seed reproduces the same branches, clusters and cache |
| `SakuraCanvas.SakuraTree.OnResize` | js/sakura-tree.js:37-42 | a resize changes the canvas size, regrows the same branches and clusters, and re-renders them at the new scale: the cache differs only in its scale op |
| `SakuraCanvas.SakuraTree.SeedTreeUnique` | js/sakura-tree.js:18-19 | the tree recorded for the fixed seed is unique: two trees of the same seed are equal |
| `SakuraCanvas.SakuraTree.UpdateTheme` | js/sakura-tree.js:92-101 | a theme update rebuilds an identical tree and cache |
| `SakuraCanvas.SakuraTree.OnThemeAttribute` | js/sakura-tree.js:72-89 | the observer records the new theme and leaves the tree and cache unchanged |
| `CatchGame.Clamp` | js/games.js:78 | the basket centre is the pointer clamped to `[40, 460]` |
| `CatchGame.NewPetal` | js/games.js:89-96 | a new petal starts at y = -20 with x in [25, 475), speed in [2, 4), size in [15, 25) and a small spin |
| `CatchGame.SweepSpec` | js/games.js:110-134 | the backward loop is: caught petals +10 each; missed −1 life each; the rest kept in order; throws iff misses exceed lives |
| `CatchGame.FrameLosesCaughtAndMissed` | js/games.js:110-134 | a frame without error keeps exactly the petals neither caught nor missed |
| `CatchGame.SecondMissThrows` | js/games.js:125-131 | two misses with one life left: the second `updateLives` throws with lives at −1 |
| `CatchGame.FrameKeepsValid` | js/games.js:110-134 | a frame of a running game keeps the score a non-negative multiple of 10, and ends the game when lives run out |
| `CatchGame.SakuraCatchGame.constructor` | js/games.js:30-40 | score 0, three lives, basket at 250 and one petal after the first frame and spawn |
| `CatchGame.SakuraCatchGame.HandleMove` | js/games.js:68-79 | a mouse or touch move sets the basket to the clamped pointer position |
| `CatchGame.SakuraCatchGame.SpawnPetal` | js/games.js:86-99 | a running game gets one new petal; a finished one none |
| `CatchGame.SakuraCatchGame.UpdateLives` | js/games.js:178-181 | `repeat(lives)` succeeds iff lives are not negative |
| `CatchGame.SakuraCatchGame.EndGame` | js/games.js:183-198 | the game is over |
| `CatchGame.SakuraCatchGame.GameLoop` | js/games.js:101-137 | a finished game does nothing; a running one is `Sweep` over all petals, last first |
| `MemoryGame.DeckHasEachFlowerTwice` | js/games.js:217-224 | the deck is 16 cards holding each of the eight flowers exactly twice |
| `MemoryGame.Pick` | js/games.js:247 | `Math.floor(r * (i + 1))` is a position no later than `i` |
| `MemoryGame.SwapIsPermutation` | js/games.js:248 | a swap keeps the cards |
| `MemoryGame.ShuffledIsPermutation` | js/games.js:245-251 | whatever the random values, the shuffle only rearranges the cards |
| `MemoryGame.ShuffledDeck` | js/games.js:224-225 | a shuffled deck still holds each flower exactly twice and nothing else |
| `MemoryGame.Shuffle` | js/games.js:245-251 | the in-place loop produces `Shuffled` and is a permutation of its input |
| `MemoryGame.EightPairsMatchAll` | js/games.js:295-300 | at most eight pairs can be matched, and eight pairs means every card is matched |
| `MemoryGame.NewDeck` | js/games.js:224-225 | a fresh 16-card array holding the shuffled deck |
| `MemoryGame.ResolveKeepsMarks` | js/games.js:292-307 | matching a waiting pair or turning it back leaves no card waiting, keeps matched cards turned, and keeps two matched cards per matched pair |
| `MemoryGame.MemoryMatchGame.constructor` | js/games.js:209-243 | a shuffled deck, nothing turned or matched, no moves, flips allowed |
| `MemoryGame.MemoryMatchGame.FlipCard` | js/games.js:271-287 | refused while two wait or for a turned or matched card; otherwise the card turns, and the second turn blocks flips and counts a move |
| `MemoryGame.MemoryMatchGame.CheckMatch` | js/games.js:289-308 | equal flowers become a matched pair, different ones turn back, flips re-allowed; fewer than two waiting throws a TypeError and changes nothing; winning means all 16 matched |
| `MemoryGame.MemoryMatchGame.Reset` | js/games.js:314-323 | a freshly shuffled deck, nothing turned, counters at zero |
| `Theme.AttrFor` | js/main.js:729-735 | a manual theme removes `data-theme` for `cherry` and sets it to the theme otherwise |
| `Theme.ActiveFlags` | js/main.js:752-767 | an option is marked iff (auto mode and the option is auto) or (manual mode and it is the stored theme) |
| `Theme.AtMostOneActive` | js/main.js:757-767 | the options are distinct, so at most one is marked |
| `Theme.ActiveOption` | js/main.js:757-767 | auto mode marks exactly `auto`; manual mode marks exactly the stored theme's option; any other mode marks nothing |
| `Theme.TreeFollowsTheme` | js/sakura-tree.js:54-56 | the theme the tree reads off the root attribute is the stored theme |
| `Theme.ThemeSwitcher.constructor` | js/main.js:611-621 | the saved theme (default cherry) is applied in the saved mode (default manual), and the menu marks it |
| `Theme.ThemeSwitcher.ApplyTheme` | js/main.js:723-737 | auto mode defers to the system preference; any other mode puts the theme on the root and leaves storage alone |
| `Theme.ThemeSwitcher.ApplyAutoTheme` | js/main.js:739-750 | a dark system gets `dark`, any other the default `cherry`, both on the root and in storage; the mode is untouched |
| `Theme.ThemeSwitcher.UpdateActiveTheme` | js/main.js:752-767 | the loop marks exactly `ActiveFlags` of the stored mode and theme |
| `Theme.ThemeSwitcher.ClickOption` | js/main.js:698-716 | `auto` stores auto mode and applies the system theme; any other option stores manual mode and that theme; only the clicked option is marked and the menu closes |
| `Theme.ThemeSwitcher.ToggleMenu` | js/main.js:685-688 | the toggle button flips the menu |
| `Theme.ThemeSwitcher.ClickDocument` | js/main.js:691-695 | a click outside the switcher closes the menu; one inside leaves it |
| `Theme.ThemeSwitcher.OnSchemeChange` | js/main.js:623-630 | a system scheme change re-applies the system theme only in auto mode |
| `PageEffects.OnlyCount` | js/main.js:336-341 | after a switch exactly one flag is set when its index exists |
| `PageEffects.ShownItemsSpec` | js/main.js:304-321 | a filter shows exactly the items whose category it names, or all for `all` |
| `PageEffects.AllShowsEverything` | js/main.js:304-312 | the `all` filter shows every item |
| `PageEffects.CategoryFilter.constructor` | js/main.js:291-294 | the filters and items as found, no display set yet |
| `PageEffects.CategoryFilter.Click` | js/main.js:296-322 | only the clicked filter is active; an item is `block` iff the category is `all` or its own, `none` otherwise, so the items shown are exactly `ShownItems` and `all` shows every item; with no filters or items nothing happens |
| `PageEffects.Leaderboard.constructor` | js/main.js:329-332 | the tabs and contents as found |
| `PageEffects.Leaderboard.Click` | js/main.js:334-341 | only tab i and content i are active; with fewer contents than tabs the content lookup throws a TypeError after the tab is marked |
| `PageEffects.OneTabOneContent` | js/main.js:336-341 | after a successful click exactly one tab and one content are active |
| `PageEffects.AfterTick` | js/main.js:102-108 | a tick appends the new blossom and drops the oldest only when 100 were already there |
| `PageEffects.TicksCount` | js/main.js:102-108 | with no expiries, after k ticks there are min(count + k, 100) blossoms |
| `PageEffects.FromStart` | js/main.js:97-108 | starting from 50, after k ticks there are min(50 + k, 100) blossoms |
| `PageEffects.TickKeepsOrder` | js/main.js:102-108 | a tick keeps the container oldest-first, at most 100, newest last |
| `PageEffects.Without` | js/main.js:140-145 | an expired blossom is removed if present; the others keep their order |
| `PageEffects.WithoutAbsent` | js/main.js:141-144 | removing a blossom already gone changes nothing |
| `PageEffects.BlossomContainer.constructor` | js/main.js:97-100 | the container starts with 50 blossoms |
| `PageEffects.BlossomContainer.Create` | js/main.js:111-138 | one new blossom is appended last |
| `PageEffects.BlossomContainer.Tick` | js/main.js:102-108 | a tick is `AfterTick` and keeps the cap of 100 |
| `PageEffects.BlossomContainer.Expire` | js/main.js:140-145 | a blossom's timer removes it if it is still there, keeping the cap and the order |
| `PageEffects.Typed` | js/main.js:910-924 | after k runs of `type()` the element holds the first min(k, length) characters |
| `PageEffects.TypedGrows` | js/main.js:914-921 | the typed text only grows: each stage is a prefix of every later one |
| `PageEffects.TypeWriter.constructor` | js/main.js:910-924 | the element is emptied and `type()` runs once at once |
| `PageEffects.TypeWriter.Type` | js/main.js:914-921 | one more character while any remain, and another run is scheduled exactly when one was added |

## Left out

- **Pixels.** Canvas painting is represented only by the ordered list of strokes and sprites the tree cache receives. Left out:
  - the sprite pictures of `createFlowerPatterns`;
  - gradients and rosettes;
  - `drawBasket`, `drawPetal`, `endGame`'s text;
  - the canvas sway transform;
  - `clearRect` and `save`/`restore` around the cache: re-rendering replaces the whole display list, and the `ctx.scale` it applies is kept as the list's first op.
- **Trigonometry and floating point.** `Math.cos` and `Math.sin` are arbitrary functions, and the properties hold for any of them. JavaScript doubles are exact reals, so rounding is not modelled.
- **Randomness and time.** `Math.random`, the theme media query and the element sizes are inputs. Timers and animation frames are method calls, so their delays and their interleaving with other events are not modelled.
- **The tree's design frame.** `resize` always assigns the same 800 × 600 design frame, so the tree is generated with those constants written in.
- **The dead `isSingle == false` branch of `drawFlowerCluster`** (js/sakura-tree.js:472-504). Every cluster is made with `isSingle: true`, so the branch never runs.
- **Empty or side-effect-free hooks:**
  - `updateFallingPetalsColor` is empty;
  - `destroy` of the games;
  - `openGame` and `closeGame` only show the modal;
  - `winGame` only shows an alert;
  - the score, lives, moves and pairs counters only mirror fields the model holds.
- **Scrolling, fading and logging:**
  - `window.scrollTo` in the pagination scripts;
  - the opacity fade timers of the category filter;
  - every `console.log`;
  - the random inline styles of a blossom.
- **Script start-up:** the `DOMContentLoaded` / `load` / 100 ms start-up wrappers of the pagination scripts.
- PerformanceConfig.Canon: folds ASCII letters only. The source's non-unicode `/i` also upper-cases non-ASCII letters (é to É), but never maps a character at or above 128 onto one below it, so against the all-ASCII mobile words the model and the source accept the same user agents.
- PageEffects.Typed: counts code points, while `text.length` and `charAt` in the source count UTF-16 code units. A title with a character outside the Basic Multilingual Plane takes two `type()` runs for that character and shows a lone surrogate in between; the model shows the whole character in one run.
- PageEffects.TypeWriter.Type: adds one code point per run, not one UTF-16 code unit, for the same reason.
- **The `.typing-effect` typewriter** (js/main.js:467-487) runs the same loop as `typeWriter`, which `PageEffects.TypeWriter` models.
- **Other parts of `js/main.js`:** the background particle canvas, the cursor follower, the ripple, the scroll progress bar, the page loader, lazy loading, debounce and throttle, the counters and the card tilt. These are cosmetic DOM effects outside this model.
- **Touch events.** `CatchGame.SakuraCatchGame.HandleMove` assumes a touch event carries at least one touch. A `touchmove` with an empty `touches` list would throw a TypeError, and the model does not cover it.
- **Pointer hit-testing.** `Theme.ThemeSwitcher.ClickDocument` takes "was the click inside the switcher" as an input, not as a DOM containment test.

## Findings

| source | as written | input that shows it | evidently intended | confidence | as-written member | corrected member |
|---|---|---|---|---|---|---|
| js/sakura-tree.js:437 | The cluster sort uses the key `(a.layer \|\| 1) - (b.layer \|\| 1)`. Layer 0 is falsy, so background clusters get the key 1, the same as middle ones. `Array.prototype.sort` is stable, so the two then stay in generation order. | A middle cluster generated before a background cluster: the background flower is painted over the middle one. | Background, then middle, then foreground, as the comment on line 436 says. | high — not executed | `SakuraRender.BackgroundOverMiddle` | `SakuraRender.DrawOrderLayered` |

The class paints the code's own order: `SakuraCanvas.SakuraTree.RenderTreeToCache` builds `SakuraRender.Raster`, which sorts with `SakuraRender.DrawOrderAsWritten`, and `SakuraRender.ForegroundPaintedLast` and `SakuraRender.RasterShape` state what still holds of it: foreground is painted last. The corrected order uses the key `layer` itself (`SakuraRender.DrawOrder`). The cache it would give is `SakuraRender.LayeredRaster`, whose sprites go from back to front (`SakuraRender.LayeredRasterShape`, `SakuraRender.DrawOrderLayered`).
