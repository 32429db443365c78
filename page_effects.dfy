/**
 * The selection rules of js/main.js: the game category filter, the
 * leaderboard tabs, the falling-blossom container capped at 100 children
 * and the hero title's typewriter. The DOM is abstracted into arrays of
 * flags (the `active` class of each element) and sequences of attributes;
 * timers are method calls made when they fire.
 */
module PageEffects {
  import opened JsValues

  /** The number of `true` flags. */
  function CountTrue(s: seq<bool>): (n: nat)
    ensures n <= |s|
  {
    if |s| == 0 then 0 else CountTrue(s[..|s| - 1]) + (if s[|s| - 1] then 1 else 0)
  }

  /** `n` flags of which only the `k`-th is set. */
  function Only(n: nat, k: nat): (flags: seq<bool>)
    ensures |flags| == n
    ensures forall j :: 0 <= j < n ==> (flags[j] <==> j == k)
  {
    seq(n, j => j == k)
  }

  /** Exactly one flag is set when `k` is in range, and none otherwise. */
  lemma {:induction false} OnlyCount(n: nat, k: nat)
    ensures CountTrue(Only(n, k)) == (if k < n then 1 else 0)
  {
    if n > 0 {
      assert Only(n, k)[..n - 1] == Only(n - 1, k);
      OnlyCount(n - 1, k);
    }
  }

  // ---------------------------------------------------------------- category filter

  /** The inline `display` of a `.game-item`: unset until the first click. */
  datatype Display = Unset | Block | NoDisplay

  /** Whether a filter with `category` shows an item with `item`; a missing attribute is `null` on both sides. */
  predicate Shows(category: Option<string>, item: Option<string>) {
    category == Some("all") || item == category
  }

  /** The indices of the items a filter shows, in document order. */
  function ShownItems(category: Option<string>, items: seq<Option<string>>): (r: seq<nat>)
    ensures |r| <= |items|
  {
    if |items| == 0 then []
    else ShownItems(category, items[..|items| - 1])
         + (if Shows(category, items[|items| - 1]) then [|items| - 1] else [])
  }

  /** `ShownItems` lists exactly the items the filter shows. */
  lemma {:induction false} ShownItemsSpec(category: Option<string>, items: seq<Option<string>>, i: nat)
    ensures i in ShownItems(category, items) <==> i < |items| && Shows(category, items[i])
  {
    if |items| > 0 {
      ShownItemsSpec(category, items[..|items| - 1], i);
    }
  }

  /** The `all` filter shows every item. */
  lemma {:induction false} AllShowsEverything(items: seq<Option<string>>)
    ensures |ShownItems(Some("all"), items)| == |items|
  {
    if |items| > 0 {
      AllShowsEverything(items[..|items| - 1]);
    }
  }

  class CategoryFilter {
    /** The `data-category` of each `.category-filter`. */
    const filters: seq<Option<string>>
    /** The `data-category` of each `.game-item`. */
    const items: seq<Option<string>>
    /** The `active` class of each filter. */
    const filterActive: array<bool>
    /** The inline `display` of each item. */
    const display: array<Display>

    ghost predicate Valid()
      reads this
    {
      filterActive.Length == |filters| && display.Length == |items|
    }

    /** The click handlers are installed only when there are filters and items. */
    predicate Installed()
      reads this
    {
      |filters| > 0 && |items| > 0
    }

    constructor (filters: seq<Option<string>>, items: seq<Option<string>>, active: seq<bool>)
      requires |active| == |filters|
      ensures Valid() && this.filters == filters && this.items == items
      ensures filterActive[..] == active && forall i :: 0 <= i < display.Length ==> display[i] == Unset
      ensures fresh(filterActive) && fresh(display)
    {
      this.filters := filters;
      this.items := items;
      filterActive := new bool[|filters|](j requires 0 <= j < |active| => active[j]);
      display := new Display[|items|](_ => Unset);
    }

    /** A click on filter `k`: only it is active, and an item shows iff the filter is `all` or has its category. */
    method Click(k: nat)
      requires Valid() && k < |filters|
      modifies filterActive, display
      ensures Installed() ==> filterActive[..] == Only(|filters|, k)
      ensures Installed() ==> forall i :: 0 <= i < |items| ==>
        display[i] == (if Shows(filters[k], items[i]) then Block else NoDisplay)
      ensures Installed() ==> forall i :: 0 <= i < |items| ==>
        (display[i] == Block <==> i in ShownItems(filters[k], items))
      ensures Installed() && filters[k] == Some("all") ==> |ShownItems(filters[k], items)| == |items|
      ensures !Installed() ==> unchanged(filterActive) && unchanged(display)
    {
      if !Installed() {
        return;
      }
      for j := 0 to filterActive.Length
        invariant forall m :: 0 <= m < j ==> !filterActive[m]
        invariant unchanged(display)
      {
        filterActive[j] := false;
      }
      filterActive[k] := true;
      var category := filters[k];
      for i := 0 to display.Length
        invariant filterActive[..] == Only(|filters|, k)
        invariant forall m :: 0 <= m < i ==> display[m] == (if Shows(category, items[m]) then Block else NoDisplay)
      {
        if category == Some("all") {
          display[i] := Block;
        } else if items[i] == category {
          display[i] := Block;
        } else {
          display[i] := NoDisplay;
        }
      }
      forall i | 0 <= i < |items|
        ensures display[i] == Block <==> i in ShownItems(category, items)
      {
        ShownItemsSpec(category, items, i);
      }
      if category == Some("all") {
        AllShowsEverything(items);
      }
    }
  }

  // ---------------------------------------------------------------- leaderboard tabs

  class Leaderboard {
    /** The `active` class of each `.leaderboard-tab`. */
    const tabActive: array<bool>
    /** The `active` class of each `.leaderboard-content`. */
    const contentActive: array<bool>

    ghost predicate Valid()
      reads this
    {
      tabActive != contentActive
    }

    predicate Installed()
      reads this
    {
      tabActive.Length > 0 && contentActive.Length > 0
    }

    constructor (tabs: seq<bool>, contents: seq<bool>)
      ensures Valid() && tabActive[..] == tabs && contentActive[..] == contents
    {
      tabActive := new bool[|tabs|](j requires 0 <= j < |tabs| => tabs[j]);
      contentActive := new bool[|contents|](j requires 0 <= j < |contents| => contents[j]);
    }

    /**
     * A click on tab `index`: that tab and the content of the same index
     * become the only active ones. With fewer contents than tabs the content
     * is `undefined` and the handler throws a TypeError (`ok` is false) after
     * every tab and content has been cleared and the tab marked.
     */
    method Click(index: nat) returns (ok: bool)
      requires Valid() && index < tabActive.Length
      modifies tabActive, contentActive
      ensures Installed() ==> ok == (index < contentActive.Length)
      ensures Installed() ==> tabActive[..] == Only(tabActive.Length, index)
      ensures Installed() ==> contentActive[..] == Only(contentActive.Length, if ok then index else contentActive.Length)
      ensures !Installed() ==> ok && unchanged(tabActive) && unchanged(contentActive)
    {
      if !Installed() {
        return true;
      }
      for j := 0 to tabActive.Length
        invariant forall m :: 0 <= m < j ==> !tabActive[m]
        invariant unchanged(contentActive)
      {
        tabActive[j] := false;
      }
      for j := 0 to contentActive.Length
        invariant forall m :: 0 <= m < j ==> !contentActive[m]
        invariant forall m :: 0 <= m < tabActive.Length ==> !tabActive[m]
      {
        contentActive[j] := false;
      }
      tabActive[index] := true;
      if index >= contentActive.Length {
        return false;
      }
      contentActive[index] := true;
      ok := true;
    }
  }

  /** After a successful click exactly one tab and one content are active. */
  lemma OneTabOneContent(tabs: nat, contents: nat, index: nat)
    requires index < tabs && index < contents
    ensures CountTrue(Only(tabs, index)) == 1 && CountTrue(Only(contents, index)) == 1
  {
    OnlyCount(tabs, index);
    OnlyCount(contents, index);
  }

  // ---------------------------------------------------------------- blossom container

  /** The most `.cherry-blossom` children a tick leaves. */
  const MaxBlossoms: nat := 100
  /** The blossoms created at start. */
  const InitialBlossoms: nat := 50

  /** Blossoms are told apart by creation order; the children are oldest first. */
  ghost predicate Increasing(s: seq<nat>) {
    forall i, j :: 0 <= i < j < |s| ==> s[i] < s[j]
  }

  /** One tick of the 200 ms interval: a new blossom, then the oldest removed if there are more than 100. */
  function AfterTick(children: seq<nat>, id: nat): (r: seq<nat>)
    ensures |children| < MaxBlossoms ==> r == children + [id]
    ensures |children| == MaxBlossoms ==> r == children[1..] + [id]
  {
    var grown := children + [id];
    if |grown| > MaxBlossoms then grown[1..] else grown
  }

  /** `k` ticks with nothing expiring, the new blossoms numbered from `id`. */
  function Ticks(children: seq<nat>, id: nat, k: nat): seq<nat>
    decreases k
  {
    if k == 0 then children else Ticks(AfterTick(children, id), id + 1, k - 1)
  }

  /** The count grows by one per tick until it reaches 100, and stays there. */
  lemma {:induction false} TicksCount(children: seq<nat>, id: nat, k: nat)
    requires |children| <= MaxBlossoms
    ensures |Ticks(children, id, k)| == Min(|children| + k, MaxBlossoms)
    decreases k
  {
    if k > 0 {
      TicksCount(AfterTick(children, id), id + 1, k - 1);
    }
  }

  /** From the 50 initial blossoms, after `k` ticks there are min(50 + k, 100). */
  lemma FromStart(children: seq<nat>, id: nat, k: nat)
    requires |children| == InitialBlossoms
    ensures |Ticks(children, id, k)| == Min(InitialBlossoms + k, MaxBlossoms)
  {
    TicksCount(children, id, k);
  }

  /** A tick keeps the children increasing and at most 100, newest last. */
  lemma TickKeepsOrder(children: seq<nat>, id: nat)
    requires Increasing(children) && |children| <= MaxBlossoms
    requires forall x :: x in children ==> x < id
    ensures Increasing(AfterTick(children, id)) && |AfterTick(children, id)| <= MaxBlossoms
    ensures AfterTick(children, id)[|AfterTick(children, id)| - 1] == id
  {
    var r := AfterTick(children, id);
    var base := if |children| < MaxBlossoms then children else children[1..];
    assert r == base + [id];
    forall i, j | 0 <= i < j < |r| ensures r[i] < r[j] {
      assert base[i] in children;
      if j < |base| {
        assert r[j] == base[j];
      }
    }
  }

  /** The children left when blossom `id` is removed by its own timer, if it is still there. */
  function Without(children: seq<nat>, id: nat): (r: seq<nat>)
    ensures forall x :: x in r ==> x in children
    ensures Increasing(children) ==> Increasing(r) && id !in r
    ensures Increasing(children) ==> forall x :: x in children && x != id ==> x in r
    ensures |r| == (if id in children then |children| - 1 else |children|)
  {
    if |children| == 0 then []
    else if children[0] == id then children[1..]
    else
      var rest := Without(children[1..], id);
      assert children == [children[0]] + children[1..];
      assert Increasing(children) ==> Increasing(children[1..]);
      assert Increasing(children) ==> forall x :: x in rest ==> children[0] < x;
      assert forall i :: 0 <= i < |rest| ==> rest[i] in rest;
      [children[0]] + rest
  }

  class BlossomContainer {
    /** The ids of the container's children, oldest first. */
    var children: seq<nat>
    /** The id of the next blossom created. */
    var nextId: nat

    ghost predicate Valid()
      reads this
    {
      |children| <= MaxBlossoms && Increasing(children)
      && forall x :: x in children ==> x < nextId
    }

    /** `createCherryBlossoms()`: 50 blossoms before the interval starts. */
    constructor ()
      ensures Valid() && children == seq(InitialBlossoms, i => i) && nextId == InitialBlossoms
    {
      children := [];
      nextId := 0;
      new;
      for i := 0 to InitialBlossoms
        invariant children == seq(i, k => k) && nextId == i
      {
        Create();
      }
    }

    /** `createCherryBlossom(container)` */
    method Create()
      modifies this
      ensures children == old(children) + [old(nextId)] && nextId == old(nextId) + 1
    {
      children := children + [nextId];
      nextId := nextId + 1;
    }

    /** The interval body: create, then drop `children[0]` past the cap. */
    method Tick()
      requires Valid()
      modifies this
      ensures Valid()
      ensures children == AfterTick(old(children), old(nextId)) && nextId == old(nextId) + 1
    {
      TickKeepsOrder(children, nextId);
      Create();
      if |children| > MaxBlossoms {
        children := children[1..];
      }
    }

    /** The removal timer of blossom `id`: it goes only if the container still holds it. */
    method Expire(id: nat)
      requires Valid()
      modifies this
      ensures Valid()
      ensures children == Without(old(children), id) && nextId == old(nextId)
      ensures id !in children
    {
      if id in children {
        children := Without(children, id);
      }
      else {
        assert Without(children, id) == children by {
          WithoutAbsent(children, id);
        }
      }
    }
  }

  /** Removing a blossom that is not there changes nothing. */
  lemma {:induction false} WithoutAbsent(children: seq<nat>, id: nat)
    requires id !in children
    ensures Without(children, id) == children
  {
    if |children| > 0 {
      WithoutAbsent(children[1..], id);
    }
  }

  // ---------------------------------------------------------------- typewriter

  /** The text after `k` runs of `type()`: one more character each run until the text is out. */
  function Typed(text: string, k: nat): (r: string)
    ensures r == text[..Min(k, |text|)]
  {
    if k == 0 then ""
    else
      var before := Typed(text, k - 1);
      if |before| < |text| then before + [text[|before|]] else before
  }

  /** What is shown only grows: every stage is a prefix of the later ones. */
  lemma TypedGrows(text: string, k: nat, m: nat)
    requires k <= m
    ensures Typed(text, k) <= Typed(text, m)
  {
  }

  class TypeWriter {
    const text: string
    /** The index of the next character. */
    var i: nat
    /** The element's `textContent`. */
    var content: string
    /** The runs of `type()` so far. */
    ghost var runs: nat

    ghost predicate Valid()
      reads this
    {
      i <= |text| && content == Typed(text, runs) && i == |content|
    }

    /** `typeWriter(element, text)`: the element is emptied and `type()` runs at once. */
    constructor (text: string)
      ensures Valid() && this.text == text && runs == 1
    {
      this.text := text;
      i := 0;
      content := "";
      runs := 0;
      new;
      var _ := Type();
    }

    /** `type()`: the next character, if any, and a further run scheduled exactly when one was added. */
    method Type() returns (scheduled: bool)
      requires Valid()
      modifies this`i, this`content, this`runs
      ensures Valid() && runs == old(runs) + 1
      ensures scheduled == (old(i) < |text|)
    {
      runs := runs + 1;
      if i < |text| {
        content := content + [text[i]];
        i := i + 1;
        return true;
      }
      return false;
    }
  }
}
