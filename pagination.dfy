/**
 * js/pagination.js: the first pagination script. `currentPage` is a closure
 * variable, posts are hidden and the current slice is shown with `forEach`,
 * and the bar is rebuilt (with `data-page` on every link) by `updatePagination`.
 */
module Pagination {
  import opened JsValues
  import opened Paging

  /** The posts' styles after `showPage` hid everything and showed `allPosts.slice(lo, hi)`. */
  function SliceView(n: nat, lo: int, hi: int): seq<PostStyle> {
    seq(n, i => if lo <= i < hi then ShownGrid else Hidden)
  }

  /** The page a click on `link` asks for: `parseInt(link.getAttribute('data-page'))`. */
  function DataPage(link: Link): int {
    match link
    case Prev(t) => t
    case Next(t) => t
    case Num(i, _, _) => i
  }

  class Pager {
    /** `allPosts.length` */
    const n: nat
    /** `Math.ceil(allPosts.length / POSTS_PER_PAGE)` */
    const total: nat
    /** `document.getElementById('pagination')` exists. */
    const hasBar: bool
    /** `initPagination` passed its guards (`.blog-main` found, posts present). */
    const started: bool
    var currentPage: int
    var posts: array<PostStyle>
    var bar: seq<Link>

    ghost predicate Valid()
      reads this
    {
      posts.Length == n && total == TotalPages(n) &&
      (started ==> n > 0 && 1 <= currentPage <= total) &&
      (started && hasBar ==> bar == Bar(currentPage, total, true))
    }

    /** `initPagination()`: a no-op without `.blog-main` or without posts, otherwise `showPage(1)`. */
    constructor (blogMainFound: bool, paginationFound: bool, postCount: nat)
      ensures Valid() && fresh(posts)
      ensures n == postCount && hasBar == paginationFound
      ensures started == (blogMainFound && postCount > 0)
      ensures currentPage == 1
      ensures started ==> posts[..] == SliceView(n, 0, Min(PostsPerPage, n))
      ensures !started ==> posts[..] == seq(postCount, _ => Unstyled) && bar == []
    {
      n := postCount;
      total := TotalPages(postCount);
      hasBar := paginationFound;
      started := blogMainFound && postCount > 0;
      currentPage := 1;
      posts := new PostStyle[postCount](_ => Unstyled);
      bar := [];
      new;
      if started {
        ShowPage(1);
      }
    }

    /** `showPage(page)` */
    method ShowPage(page: int)
      requires posts.Length == n && total == TotalPages(n)
      modifies this`currentPage, this`bar, posts
      ensures currentPage == page
      ensures var r := SliceRange(n, PageStart(page), PageStart(page) + PostsPerPage);
        posts[..] == SliceView(n, r.0, r.1)
      ensures page >= 1 ==> forall i :: 0 <= i < n ==> (posts[i] == ShownGrid <==> OnPage(n, page, i))
      ensures bar == if hasBar then Bar(page, total, true) else old(bar)
    {
      currentPage := page;
      var i := 0;
      while i < posts.Length
        invariant 0 <= i <= posts.Length
        invariant forall k :: 0 <= k < i ==> posts[k] == Hidden
        invariant currentPage == page && bar == old(bar)
      {
        posts[i] := Hidden;
        i := i + 1;
      }
      var start := PageStart(page);
      var range := SliceRange(n, start, start + PostsPerPage);
      i := range.0;
      while i < range.1
        invariant range.0 <= i <= range.1
        invariant forall k :: 0 <= k < n ==> posts[k] == if range.0 <= k < i then ShownGrid else Hidden
        invariant currentPage == page && bar == old(bar)
      {
        posts[i] := ShownGrid;
        i := i + 1;
      }
      if page >= 1 {
        forall k | 0 <= k < n ensures posts[k] == ShownGrid <==> OnPage(n, page, k) {
          SliceIsPage(n, page, k);
        }
      }
      UpdatePagination(page);
    }

    /** `updatePagination(page, totalPages)`: rebuilds the bar's links, one per loop step. */
    method UpdatePagination(page: int)
      modifies this`bar
      ensures bar == if hasBar then Bar(page, total, true) else old(bar)
    {
      if !hasBar {
        return;
      }
      var links: seq<Link> := [];
      if page > 1 {
        links := links + [Prev(page - 1)];
      }
      var pre := links;
      var i := 1;
      while i <= total
        invariant 1 <= i <= total + 1
        invariant links == pre + NumLinks(page, i - 1, true)
      {
        links := links + [NumLink(page, i, true)];
        i := i + 1;
      }
      if page < total {
        links := links + [Next(page + 1)];
      }
      bar := links;
    }

    /**
     * The click handler bound to the bar's link number `k`: it shows the
     * page in `data-page` unless that is 0 (or not a number) or the current page.
     */
    method Click(k: nat)
      requires Valid() && started && hasBar && k < |bar|
      modifies this`currentPage, this`bar, posts
      ensures Valid()
      ensures var target := DataPage(old(bar)[k]);
        if target != 0 && target != old(currentPage) then
          currentPage == target &&
          forall i :: 0 <= i < n ==> (posts[i] == ShownGrid <==> OnPage(n, target, i))
        else currentPage == old(currentPage) && bar == old(bar) && posts[..] == old(posts[..])
    {
      var target := DataPage(bar[k]);
      BarTargetsInRange(currentPage, total, true, k);
      BarShape(currentPage, total, true);
      if target != 0 && target != currentPage {
        ShowPage(target);
      }
    }
  }
}
