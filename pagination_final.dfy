/**
 * js/pagination-final.js: the `load` handler variant that tags every post
 * with `data-index` and overwrites every post's whole `cssText` on each page
 * change, in one `forEach`.
 */
module PaginationFinal {
  import opened JsValues
  import opened Paging

  /** The posts' styles after `showPage(page)`: the flex block on the page, `display: none` elsewhere. */
  function PageView(n: nat, page: int): seq<PostStyle> {
    seq(n, i => if OnPage(n, page, i) then ShownFlex else Hidden)
  }

  class Pager {
    const n: nat
    const total: nat
    const started: bool
    var currentPage: int
    var posts: array<PostStyle>
    /** Each post's `data-index` attribute, missing until the handler tags it. */
    var dataIndex: array<Option<int>>
    var bar: seq<Link>

    ghost predicate Valid()
      reads this, dataIndex
    {
      posts.Length == n && dataIndex.Length == n &&
      total == TotalPages(n) && (started ==> n > 0) &&
      (started ==> forall i :: 0 <= i < n ==> dataIndex[i] == Some(i))
    }

    /** The `load` handler: guards, `data-index` tagging, then `showPage(1)`. */
    constructor (blogMainFound: bool, paginationFound: bool, postCount: nat)
      ensures Valid() && fresh(posts) && fresh(dataIndex) && n == postCount
      ensures started == (blogMainFound && paginationFound && postCount > 0)
      ensures currentPage == 1
      ensures started ==> posts[..] == PageView(n, 1) && bar == Bar(1, total, false)
      ensures !started ==> posts[..] == seq(postCount, _ => Unstyled) && bar == [] &&
                           dataIndex[..] == seq(postCount, _ => None)
    {
      n := postCount;
      total := TotalPages(postCount);
      var go := blogMainFound && paginationFound && postCount > 0;
      started := go;
      currentPage := 1;
      posts := new PostStyle[postCount](_ => Unstyled);
      var tags := new Option<int>[postCount](_ => None);
      if go {
        var i := 0;
        while i < postCount
          invariant 0 <= i <= postCount
          invariant forall k :: 0 <= k < i ==> tags[k] == Some(k)
        {
          tags[i] := Some(i);
          i := i + 1;
        }
      }
      dataIndex := tags;
      bar := [];
      new;
      if started {
        ShowPage(1);
      }
    }

    /** `showPage(page)`: every post's style is written, for any page number. */
    method ShowPage(page: int)
      requires posts.Length == n
      modifies posts, this`bar
      ensures posts[..] == PageView(n, page)
      ensures bar == Bar(page, total, false)
    {
      var start := PageStart(page);
      var end := Min(start + PostsPerPage, n);
      var i := 0;
      while i < n
        invariant 0 <= i <= n
        invariant forall k :: 0 <= k < i ==> posts[k] == if start <= k < end then ShownFlex else Hidden
      {
        if i >= start && i < end {
          posts[i] := ShownFlex;
        } else {
          posts[i] := Hidden;
        }
        i := i + 1;
      }
      RenderPagination(page);
    }

    /** `renderPagination(page)` with the ◀ / ▶ arrows. */
    method RenderPagination(page: int)
      modifies this`bar
      ensures bar == Bar(page, total, false)
    {
      var links: seq<Link> := [];
      if page > 1 {
        links := links + [Prev(page - 1)];
      }
      var pre := links;
      var i := 1;
      while i <= total
        invariant 1 <= i <= total + 1
        invariant links == pre + NumLinks(page, i - 1, false)
      {
        links := links + [NumLink(page, i, false)];
        i := i + 1;
      }
      if page < total {
        links := links + [Next(page + 1)];
      }
      bar := links;
    }

    /** `window.goToPage(page)`: no range check. */
    method GoToPage(page: int)
      requires Valid()
      modifies this`currentPage, posts, this`bar
      ensures Valid() && currentPage == page
      ensures posts[..] == PageView(n, page) && bar == Bar(page, total, false)
      ensures CountActive(bar) == if 1 <= page <= total then 1 else 0
    {
      currentPage := page;
      ShowPage(page);
      OneActiveLink(page, total, false);
    }
  }

  /** After any `showPage` exactly the posts of that page are visible, and a post is visible on one page only. */
  lemma VisibleOnOnePage(n: nat, page: int, q: int, i: int)
    requires 0 <= i < n
    requires PageView(n, page)[i] == ShownFlex && PageView(n, q)[i] == ShownFlex
    ensures page == q && 1 <= page <= TotalPages(n)
  {
    EveryPostOnOnePage(n, i);
  }
}
