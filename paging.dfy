/**
 * The arithmetic and the link list shared by the three blog-list pagination
 * scripts (js/pagination.js, js/pagination-simple.js, js/pagination-final.js):
 * five posts per page, page p covers indices [(p-1)*5, min((p-1)*5+5, n)).
 */
module Paging {
  import opened JsValues

  const PostsPerPage: nat := 5

  /** The inline display style a script leaves on a `.blog-item`. */
  datatype PostStyle =
    | Unstyled    // no inline style written yet
    | Hidden      // `display: none !important`
    | ShownGrid   // `display: grid !important`
    | ShownFlex   // the flex / visible / opaque block of pagination-final.js

  /** `Math.ceil(n / POSTS_PER_PAGE)` */
  function TotalPages(n: nat): (t: nat)
    ensures t * PostsPerPage >= n
    ensures t > 0 ==> (t - 1) * PostsPerPage < n
  {
    (n + PostsPerPage - 1) / PostsPerPage
  }

  /** `(page - 1) * POSTS_PER_PAGE` */
  function PageStart(page: int): int { (page - 1) * PostsPerPage }

  /** `Math.min(start + POSTS_PER_PAGE, allPosts.length)` */
  function PageEnd(n: nat, page: int): int { Min(PageStart(page) + PostsPerPage, n) }

  /** Post `i` of `n` belongs to page `page`. */
  predicate OnPage(n: nat, page: int, i: int) {
    PageStart(page) <= i < PageEnd(n, page)
  }

  /** How `Array.prototype.slice` reads one of its bounds for an array of length `len`. */
  function SliceBound(len: nat, k: int): (r: nat)
    ensures r <= len
  {
    if k < 0 then Max(len + k, 0) else Min(k, len)
  }

  /** The index range `[lo, hi)` that `array.slice(start, end)` copies. */
  function SliceRange(len: nat, start: int, end: int): (r: (nat, nat))
    ensures r.0 <= r.1 <= len
  {
    (SliceBound(len, start), Max(SliceBound(len, end), SliceBound(len, start)))
  }

  /** For a real page number the slice of pagination.js is exactly the page's posts. */
  lemma SliceIsPage(n: nat, page: int, i: int)
    requires page >= 1
    ensures var r := SliceRange(n, PageStart(page), PageStart(page) + PostsPerPage);
      (r.0 <= i < r.1) <==> OnPage(n, page, i)
  {
  }

  /** Every post is on exactly one page, and that page exists. */
  lemma EveryPostOnOnePage(n: nat, i: int)
    requires 0 <= i < n
    ensures var p := i / PostsPerPage + 1;
      1 <= p <= TotalPages(n) && OnPage(n, p, i) &&
      forall q :: OnPage(n, q, i) ==> q == p
  {
  }

  /** A page in range shows between one and five posts: the rest of the list, at most five. */
  lemma PageSize(n: nat, page: int)
    requires 1 <= page <= TotalPages(n)
    ensures PageEnd(n, page) - PageStart(page) == Min(PostsPerPage, n - PageStart(page))
    ensures 1 <= PageEnd(n, page) - PageStart(page) <= PostsPerPage
  {
  }

  /** A page past the last one shows nothing. */
  lemma PastLastPageIsEmpty(n: nat, page: int, i: int)
    requires page > TotalPages(n)
    ensures !OnPage(n, page, i)
  {
  }

  /** One link of the pagination bar. `target` and `goesTo` are the page a click asks for. */
  datatype Link =
    | Prev(target: int)
    | Num(number: int, active: bool, goesTo: Option<int>)
    | Next(target: int)

  /** The numbered link for page `i` when `page` is current. */
  function NumLink(page: int, i: int, activeClickable: bool): Link {
    Num(i, i == page, if i == page && !activeClickable then None else Some(i))
  }

  /** The numbered links `1..total` in order. */
  function NumLinks(page: int, total: nat, activeClickable: bool): seq<Link> {
    seq(total, k => NumLink(page, k + 1, activeClickable))
  }

  /**
   * The bar the scripts build: a previous link when `page > 1`, the numbers,
   * a next link when `page < total`.
   */
  function Bar(page: int, total: nat, activeClickable: bool): seq<Link> {
    (if page > 1 then [Prev(page - 1)] else [])
    + NumLinks(page, total, activeClickable)
    + (if page < total then [Next(page + 1)] else [])
  }

  function CountActive(links: seq<Link>): nat {
    if links == [] then 0
    else CountActive(links[..|links| - 1]) + (if links[|links| - 1].Num? && links[|links| - 1].active then 1 else 0)
  }

  lemma {:induction false} CountActiveAppend(a: seq<Link>, b: seq<Link>)
    ensures CountActive(a + b) == CountActive(a) + CountActive(b)
    decreases |b|
  {
    if b == [] {
      assert a + b == a;
    } else {
      assert (a + b)[..|a + b| - 1] == a + b[..|b| - 1];
      CountActiveAppend(a, b[..|b| - 1]);
    }
  }

  lemma {:induction false} CountActiveNums(page: int, total: nat, activeClickable: bool)
    ensures CountActive(NumLinks(page, total, activeClickable)) == if 1 <= page <= total then 1 else 0
    decreases total
  {
    if total > 0 {
      var s := NumLinks(page, total, activeClickable);
      assert s[..total - 1] == NumLinks(page, total - 1, activeClickable);
      CountActiveNums(page, total - 1, activeClickable);
    }
  }

  /** The shape of the bar: where the previous, numbered and next links sit and what they point at. */
  lemma BarShape(page: int, total: nat, activeClickable: bool)
    ensures var bar, pre := Bar(page, total, activeClickable), if page > 1 then 1 else 0;
      |bar| == pre + total + (if page < total then 1 else 0) &&
      (page > 1 <==> |bar| > 0 && bar[0].Prev?) &&
      (page > 1 ==> bar[0] == Prev(page - 1)) &&
      (forall j :: pre <= j < pre + total ==>
         bar[j].Num? && bar[j].number == j - pre + 1 && (bar[j].active <==> bar[j].number == page) &&
         bar[j].goesTo == (if bar[j].active && !activeClickable then None else Some(bar[j].number))) &&
      (page < total <==> |bar| > 0 && bar[|bar| - 1].Next?) &&
      (page < total ==> bar[|bar| - 1] == Next(page + 1))
  {
  }

  /** Exactly one link is marked active when the page exists, none otherwise. */
  lemma OneActiveLink(page: int, total: nat, activeClickable: bool)
    ensures CountActive(Bar(page, total, activeClickable)) == if 1 <= page <= total then 1 else 0
  {
    var pre: seq<Link> := if page > 1 then [Prev(page - 1)] else [];
    var post: seq<Link> := if page < total then [Next(page + 1)] else [];
    CountActiveAppend(pre + NumLinks(page, total, activeClickable), post);
    CountActiveAppend(pre, NumLinks(page, total, activeClickable));
    CountActiveNums(page, total, activeClickable);
    assert CountActive(pre) == 0 by { if page > 1 { assert pre[..0] == []; } }
    assert CountActive(post) == 0 by { if page < total { assert post[..0] == []; } }
  }

  /** From a page that exists, every link of the bar leads to a page that exists. */
  lemma BarTargetsInRange(page: int, total: nat, activeClickable: bool, k: nat)
    requires 1 <= page <= total
    requires k < |Bar(page, total, activeClickable)|
    ensures var l := Bar(page, total, activeClickable)[k];
      (l.Prev? || l.Next? ==> 1 <= l.target <= total) &&
      (l.Num? && l.goesTo.Some? ==> 1 <= l.goesTo.value <= total)
  {
    BarShape(page, total, activeClickable);
  }
}
