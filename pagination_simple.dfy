/**
 * js/pagination-simple.js: the `load` handler variant. Posts are hidden, then
 * an index loop shows `[start, end)`; the bar's current link has no `onclick`;
 * the global `goToPage` sets `currentPage` with no range check.
 */
module PaginationSimple {
  import opened JsValues
  import opened Paging

  /** The posts' styles after `showPage(page)` ran to completion. */
  function PageView(n: nat, page: int): seq<PostStyle> {
    seq(n, i => if OnPage(n, page, i) then ShownGrid else Hidden)
  }

  class Pager {
    const n: nat
    const total: nat
    /** The handler passed its guards (`.blog-main` and `#pagination` found, posts present). */
    const started: bool
    var currentPage: int
    var posts: array<PostStyle>
    var bar: seq<Link>

    ghost predicate Valid()
      reads this
    {
      posts.Length == n && total == TotalPages(n) && (started ==> n > 0)
    }

    /** The `load` handler: a no-op when an element or every post is missing, otherwise `showPage(1)`. */
    constructor (blogMainFound: bool, paginationFound: bool, postCount: nat)
      ensures Valid() && fresh(posts) && n == postCount
      ensures started == (blogMainFound && paginationFound && postCount > 0)
      ensures currentPage == 1
      ensures started ==> posts[..] == PageView(n, 1) && bar == Bar(1, total, false)
      ensures !started ==> posts[..] == seq(postCount, _ => Unstyled) && bar == []
    {
      n := postCount;
      total := TotalPages(postCount);
      started := blogMainFound && paginationFound && postCount > 0;
      currentPage := 1;
      posts := new PostStyle[postCount](_ => Unstyled);
      bar := [];
      new;
      if started {
        var ok := ShowPage(1);
      }
    }

    /**
     * `showPage(page)`. `ok` is false when the loop reads `allPosts[i]` at a
     * negative `i` (every page below 1) and throws a TypeError: by then every
     * post is hidden and the bar is left as it was.
     */
    method ShowPage(page: int) returns (ok: bool)
      requires Valid() && started
      modifies posts, this`bar
      ensures ok == (page >= 1)
      ensures ok ==> posts[..] == PageView(n, page) && bar == Bar(page, total, false)
      ensures !ok ==> posts[..] == seq(n, _ => Hidden) && bar == old(bar)
    {
      var i := 0;
      while i < posts.Length
        invariant 0 <= i <= posts.Length
        invariant forall k :: 0 <= k < i ==> posts[k] == Hidden
        invariant bar == old(bar)
      {
        posts[i] := Hidden;
        i := i + 1;
      }
      var start := PageStart(page);
      var end := Min(start + PostsPerPage, n);
      if start < 0 {
        // the first iteration reads allPosts[start], which is undefined
        assert start < end;
        return false;
      }
      i := start;
      while i < end
        invariant start <= i <= Max(start, end)
        invariant forall k :: 0 <= k < n ==> posts[k] == if start <= k < i then ShownGrid else Hidden
        invariant bar == old(bar)
      {
        posts[i] := ShownGrid;
        i := i + 1;
      }
      RenderPagination(page);
      ok := true;
    }

    /** `renderPagination(page)`: the current page's link is active and has no `onclick`. */
    method RenderPagination(page: int)
      modifies this`bar
      ensures bar == Bar(page, total, false)
    {
      var links: seq<Link> := [];
      if page > 1 {
        links := links + [Prev(page - 1)];
      }
      var pre := links;
      var i := 1;
      while i <= total
        invariant 1 <= i <= total + 1
        invariant links == pre + NumLinks(page, i - 1, false)
      {
        links := links + [NumLink(page, i, false)];
        i := i + 1;
      }
      if page < total {
        links := links + [Next(page + 1)];
      }
      bar := links;
    }

    /** `window.goToPage(page)`: no range check; a page past the last shows nothing and marks no link. */
    method GoToPage(page: int) returns (ok: bool)
      requires Valid() && started
      modifies this`currentPage, posts, this`bar
      ensures Valid() && currentPage == page && ok == (page >= 1)
      ensures ok ==> posts[..] == PageView(n, page) && bar == Bar(page, total, false)
      ensures page > total ==> forall i :: 0 <= i < n ==> posts[i] == Hidden
      ensures page > total ==> CountActive(bar) == 0
      ensures !ok ==> posts[..] == seq(n, _ => Hidden) && bar == old(bar)
    {
      currentPage := page;
      ok := ShowPage(page);
      if page > total {
        forall i | 0 <= i < n ensures posts[i] == Hidden {
          PastLastPageIsEmpty(n, page, i);
        }
        OneActiveLink(page, total, false);
      }
    }
  }
}
