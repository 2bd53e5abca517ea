/**
 * The pagination bar under the result grid: how many pages there are, which
 * page links are shown (a window around the current page, the first and the
 * last page, with an ellipsis wherever numbers are skipped) and which clicks
 * change the page.
 */
module Pagination {
  import opened Wrappers

  /** The movie API serves ten results per page. */
  const DefaultResultsPerPage: nat := 10

  /** Number of pages shown on each side of the current page. */
  const Delta: int := 2

  /** One item of the page bar: a page number link or the `'...'` marker. */
  datatype Entry = Page(n: int) | Dots

  /** `Math.ceil(totalResults / resultsPerPage)`. */
  function TotalPages(totalResults: nat, resultsPerPage: nat): (r: nat)
    requires resultsPerPage > 0
    ensures totalResults <= r * resultsPerPage < totalResults + resultsPerPage
  {
    var q := (totalResults + resultsPerPage - 1) / resultsPerPage;
    DivBounds(totalResults + resultsPerPage - 1, resultsPerPage);
    q
  }

  lemma DivBounds(a: nat, b: nat)
    requires b > 0
    ensures a - b < (a / b) * b <= a
  {
    assert a == (a / b) * b + a % b;
  }

  /** The bar is rendered only when there is more than one page. */
  predicate Shown(totalPages: int)
  {
    totalPages > 1
  }

  // ---------------------------------------------------------------------------
  // The specification of the page window

  /**
   * The numbers among lo, lo+1, ..., hi-1 that lie strictly between the first
   * and the last page, in the order the first loop of the window visits them.
   */
  function Middle(lo: int, hi: int, totalPages: int): seq<int>
    decreases hi - lo
  {
    if hi <= lo then []
    else Middle(lo, hi - 1, totalPages) + (if 1 < hi - 1 < totalPages then [hi - 1] else [])
  }

  /** The page numbers of the bar before the ellipses are added. */
  function Window(currentPage: int, totalPages: int): seq<int>
  {
    [1] + Middle(currentPage - Delta, currentPage + Delta + 1, totalPages)
    + (if totalPages > 1 then [totalPages] else [])
  }

  /** The pages in order, with `Dots` before each page that is more than one past its predecessor. */
  function WithDots(pages: seq<int>, prev: int): seq<Entry>
    decreases |pages|
  {
    if pages == [] then []
    else (if pages[0] - prev > 1 then [Dots] else []) + [Page(pages[0])] + WithDots(pages[1..], pages[0])
  }

  /** What `getPageRange` returns. */
  function PageRange(currentPage: int, totalPages: int): seq<Entry>
  {
    WithDots(Window(currentPage, totalPages), 0)
  }

  /** The numeric entries of a bar, in order. */
  function Pages(entries: seq<Entry>): seq<int>
  {
    if entries == [] then []
    else (if entries[0].Page? then [entries[0].n] else []) + Pages(entries[1..])
  }

  predicate StrictlyIncreasing(s: seq<int>)
  {
    forall i, j :: 0 <= i < j < |s| ==> s[i] < s[j]
  }

  /** Where the ellipses sit in `r`, a bar whose first page follows `prev`. */
  predicate DotsExactlyAtGaps(r: seq<Entry>, prev: int)
  {
    // every marker is followed by a page and stands for a jump of more than one
    && (forall k :: 0 <= k < |r| && r[k].Dots? ==>
          k + 1 < |r| && r[k + 1].Page?
          && (k == 0 ==> r[k + 1].n - prev > 1)
          && (k > 0 ==> r[k - 1].Page? && r[k + 1].n - r[k - 1].n > 1))
    // two adjacent page links are at most one apart
    && (forall k :: 0 < k < |r| && r[k - 1].Page? && r[k].Page? ==> r[k].n - r[k - 1].n <= 1)
    && (|r| > 0 && r[0].Page? ==> r[0].n - prev <= 1)
  }

  // ---------------------------------------------------------------------------
  // The component

  /**
   * `getPageRange`: the first loop collects page 1, the pages around the current
   * page and the last page; the second loop inserts the ellipses.
   */
  method GetPageRange(currentPage: int, totalPages: int) returns (rangeWithDots: seq<Entry>)
    ensures rangeWithDots == PageRange(currentPage, totalPages)
  {
    var range := [1];
    for i := currentPage - Delta to currentPage + Delta + 1
      invariant range == [1] + Middle(currentPage - Delta, i, totalPages)
    {
      if i > 1 && i < totalPages {
        range := range + [i];
      }
    }
    if totalPages > 1 {
      range := range + [totalPages];
    }
    assert range == Window(currentPage, totalPages);

    rangeWithDots := [];
    var prev := 0;
    for k := 0 to |range|
      invariant prev == LastOr(range[..k], 0)
      invariant rangeWithDots == WithDots(range[..k], 0)
    {
      var page := range[k];
      assert range[..k + 1] == range[..k] + [page];
      WithDotsSnoc(range[..k], 0, page);
      if page - prev > 1 {
        rangeWithDots := rangeWithDots + [Dots];
      }
      rangeWithDots := rangeWithDots + [Page(page)];
      prev := page;
    }
    assert range[..|range|] == range;
  }

  /** The last page of `pages`, or `prev` when there is none. */
  function LastOr(pages: seq<int>, prev: int): int
  {
    if pages == [] then prev else pages[|pages| - 1]
  }

  /** Adding a page at the end adds its marker, if any, and its link at the end. */
  lemma {:induction false} WithDotsSnoc(pages: seq<int>, prev: int, x: int)
    ensures WithDots(pages + [x], prev)
         == WithDots(pages, prev) + (if x - LastOr(pages, prev) > 1 then [Dots] else []) + [Page(x)]
    decreases |pages|
  {
    var mark := if x - LastOr(pages, prev) > 1 then [Dots] else [];
    if pages == [] {
      assert pages + [x] == [x];
      assert [x][1..] == [];
    } else {
      var head := (if pages[0] - prev > 1 then [Dots] else []) + [Page(pages[0])];
      assert (pages + [x])[0] == pages[0];
      assert (pages + [x])[1..] == pages[1..] + [x];
      WithDotsSnoc(pages[1..], pages[0], x);
      assert LastOr(pages[1..], pages[0]) == LastOr(pages, prev);
      calc {
        WithDots(pages + [x], prev);
        head + WithDots(pages[1..] + [x], pages[0]);
        head + (WithDots(pages[1..], pages[0]) + mark + [Page(x)]);
        (head + WithDots(pages[1..], pages[0])) + mark + [Page(x)];
        WithDots(pages, prev) + mark + [Page(x)];
      }
    }
  }

  /**
   * The whole component: nothing when there is at most one page, otherwise the
   * bar for the current page.
   */
  method Render(currentPage: int, totalResults: nat, resultsPerPage: nat) returns (bar: Option<seq<Entry>>)
    requires resultsPerPage > 0
    ensures bar.None? <==> !Shown(TotalPages(totalResults, resultsPerPage))
    ensures bar.Some? ==> bar.value == PageRange(currentPage, TotalPages(totalResults, resultsPerPage))
  {
    var totalPages := TotalPages(totalResults, resultsPerPage);
    if totalPages <= 1 {
      return None;
    }
    var range := GetPageRange(currentPage, totalPages);
    bar := Some(range);
  }

  /**
   * `handlePageClick`: the page handed to `onPageChange`, or `None` when the
   * click is ignored.
   */
  function ClickTarget(page: int, currentPage: int, totalPages: int): (r: Option<int>)
    ensures r.Some? <==> page != currentPage && 1 <= page <= totalPages
    ensures r.Some? ==> r.value == page
  {
    if page != currentPage && page >= 1 && page <= totalPages then Some(page) else None
  }

  // ---------------------------------------------------------------------------
  // Properties of the window

  /** The middle loop yields exactly the in-range pages strictly inside the bar, increasing. */
  lemma {:induction false} MiddleExactly(lo: int, hi: int, totalPages: int)
    ensures StrictlyIncreasing(Middle(lo, hi, totalPages))
    ensures forall x :: x in Middle(lo, hi, totalPages) <==> lo <= x < hi && 1 < x < totalPages
    decreases hi - lo
  {
    if hi > lo {
      var m := Middle(lo, hi - 1, totalPages);
      MiddleExactly(lo, hi - 1, totalPages);
      if 1 < hi - 1 < totalPages {
        var m' := m + [hi - 1];
        forall i, j | 0 <= i < j < |m'|
          ensures m'[i] < m'[j]
        {
          if j == |m| {
            assert m'[i] == m[i] && m[i] in m;
          }
        }
      }
    }
  }

  /** Page 1 first, the last page last, increasing, within range, and which numbers appear. */
  lemma WindowShape(currentPage: int, totalPages: int)
    requires Shown(totalPages)
    ensures var w := Window(currentPage, totalPages);
      && |w| >= 2 && w[0] == 1 && w[|w| - 1] == totalPages
      && StrictlyIncreasing(w)
      && (forall i :: 0 <= i < |w| ==> 1 <= w[i] <= totalPages)
      && (forall x :: x in w <==>
            x == 1 || x == totalPages || (currentPage - Delta <= x <= currentPage + Delta && 1 < x < totalPages))
  {
    var m := Middle(currentPage - Delta, currentPage + Delta + 1, totalPages);
    MiddleExactly(currentPage - Delta, currentPage + Delta + 1, totalPages);
    var w := Window(currentPage, totalPages);
    assert w == [1] + m + [totalPages];
    forall i | 0 <= i < |w|
      ensures 1 <= w[i] <= totalPages
    {
      if 0 < i < |w| - 1 {
        assert w[i] == m[i - 1] && m[i - 1] in m;
      }
    }
    forall i, j | 0 <= i < j < |w|
      ensures w[i] < w[j]
    {
      if 0 < i && j < |w| - 1 {
        assert w[i] == m[i - 1] && w[j] == m[j - 1];
      } else if 0 < i {
        assert w[i] == m[i - 1] && m[i - 1] in m;
      } else if j < |w| - 1 {
        assert w[j] == m[j - 1] && m[j - 1] in m;
      }
    }
  }

  /** Dropping the ellipses gives back the page numbers. */
  lemma {:induction false} PagesOfWithDots(pages: seq<int>, prev: int)
    ensures Pages(WithDots(pages, prev)) == pages
    decreases |pages|
  {
    if pages != [] {
      var head := (if pages[0] - prev > 1 then [Dots] else []) + [Page(pages[0])];
      PagesOfWithDots(pages[1..], pages[0]);
      PagesAppend(head, WithDots(pages[1..], pages[0]));
      assert Pages(head) == [pages[0]] by {
        if pages[0] - prev > 1 {
          assert head[1..] == [Page(pages[0])];
        }
      }
    }
  }

  lemma {:induction false} PagesAppend(a: seq<Entry>, b: seq<Entry>)
    ensures Pages(a + b) == Pages(a) + Pages(b)
    decreases |a|
  {
    if a == [] {
      assert a + b == b;
    } else {
      assert (a + b)[0] == a[0];
      assert (a + b)[1..] == a[1..] + b;
      PagesAppend(a[1..], b);
      calc {
        Pages(a + b);
        (if a[0].Page? then [a[0].n] else []) + Pages(a[1..] + b);
        (if a[0].Page? then [a[0].n] else []) + (Pages(a[1..]) + Pages(b));
        ((if a[0].Page? then [a[0].n] else []) + Pages(a[1..])) + Pages(b);
        Pages(a) + Pages(b);
      }
    }
  }

  /** Every ellipsis marks a jump of more than one and every jump of more than one gets one. */
  lemma {:induction false} DotsOfWithDots(pages: seq<int>, prev: int)
    ensures DotsExactlyAtGaps(WithDots(pages, prev), prev)
    decreases |pages|
  {
    if pages != [] {
      var p := pages[0];
      var rest := WithDots(pages[1..], p);
      DotsOfWithDots(pages[1..], p);
      assert [p] + pages[1..] == pages;
      if p - prev > 1 {
        PrependPage(p, p - 1, rest);
        PrependDots(p, prev, [Page(p)] + rest);
        WithDotsCons(p, pages[1..], prev);
        assert [Dots] + [Page(p)] + rest == [Dots] + ([Page(p)] + rest);
      } else {
        PrependPage(p, prev, rest);
        WithDotsCons(p, pages[1..], prev);
        assert [] + [Page(p)] + rest == [Page(p)] + rest;
      }
    }
  }

  /** A page link at most one past `prev` in front of a bar that follows it. */
  lemma PrependPage(p: int, prev: int, rest: seq<Entry>)
    requires p - prev <= 1 && DotsExactlyAtGaps(rest, p)
    ensures DotsExactlyAtGaps([Page(p)] + rest, prev)
  {
    var r := [Page(p)] + rest;
    forall k | 0 <= k < |r| && r[k].Dots?
      ensures k + 1 < |r| && r[k + 1].Page?
      ensures k > 0 ==> r[k - 1].Page? && r[k + 1].n - r[k - 1].n > 1
    {
      assert r[k] == rest[k - 1];
      if k > 1 {
        assert r[k - 1] == rest[k - 2];
      }
    }
    forall k | 0 < k < |r| && r[k - 1].Page? && r[k].Page?
      ensures r[k].n - r[k - 1].n <= 1
    {
      assert r[k] == rest[k - 1];
      if k > 1 {
        assert r[k - 1] == rest[k - 2];
      }
    }
  }

  /** An ellipsis in front of a bar whose first page is more than one past `prev`. */
  lemma PrependDots(p: int, prev: int, rest: seq<Entry>)
    requires p - prev > 1 && |rest| > 0 && rest[0] == Page(p)
    requires forall k :: 0 <= k < |rest| && rest[k].Dots? ==> k > 0 && k + 1 < |rest| && rest[k + 1].Page? && rest[k - 1].Page? && rest[k + 1].n - rest[k - 1].n > 1
    requires forall k :: 0 < k < |rest| && rest[k - 1].Page? && rest[k].Page? ==> rest[k].n - rest[k - 1].n <= 1
    ensures DotsExactlyAtGaps([Dots] + rest, prev)
  {
    var r := [Dots] + rest;
    forall k | 0 <= k < |r| && r[k].Dots?
      ensures k + 1 < |r| && r[k + 1].Page?
      ensures k == 0 ==> r[k + 1].n - prev > 1
      ensures k > 0 ==> r[k - 1].Page? && r[k + 1].n - r[k - 1].n > 1
    {
      if k > 0 {
        assert r[k] == rest[k - 1] && r[k + 1] == rest[k] && r[k - 1] == rest[k - 2];
      }
    }
    forall k | 0 < k < |r| && r[k - 1].Page? && r[k].Page?
      ensures r[k].n - r[k - 1].n <= 1
    {
      assert r[k] == rest[k - 1] && r[k - 1] == rest[k - 2];
    }
  }

  /**
   * The bar for a shown pagination starts with page 1, ends with the last page,
   * lists increasing in-range page numbers exactly as the window chooses them,
   * and has an ellipsis exactly where numbers are skipped (never first).
   */
  lemma PageRangeShape(currentPage: int, totalPages: int)
    requires Shown(totalPages)
    ensures var r := PageRange(currentPage, totalPages);
      && |r| >= 2 && r[0] == Page(1) && r[|r| - 1] == Page(totalPages)
      && Pages(r) == Window(currentPage, totalPages)
      && StrictlyIncreasing(Pages(r))
      && (forall i :: 0 <= i < |Pages(r)| ==> 1 <= Pages(r)[i] <= totalPages)
      && DotsExactlyAtGaps(r, 0)
  {
    var w := Window(currentPage, totalPages);
    WindowShape(currentPage, totalPages);
    PagesOfWithDots(w, 0);
    DotsOfWithDots(w, 0);
    var r := PageRange(currentPage, totalPages);
    assert r[0] == Page(1);
    assert |r| >= 2 by {
      assert |Pages(r)| >= 2;
      PagesLength(r);
    }
    LastPage(w, 0);
  }

  lemma {:induction false} PagesLength(r: seq<Entry>)
    ensures |Pages(r)| <= |r|
    decreases |r|
  {
    if r != [] {
      PagesLength(r[1..]);
    }
  }

  lemma {:induction false} LastPage(pages: seq<int>, prev: int)
    requires pages != []
    ensures var r := WithDots(pages, prev); |r| > 0 && r[|r| - 1] == Page(pages[|pages| - 1])
    decreases |pages|
  {
    if |pages| > 1 {
      LastPage(pages[1..], pages[0]);
    }
  }

  /** 95 results at ten per page, on page 5: `[1, '...', 3, 4, 5, 6, 7, '...', 10]`. */
  lemma WorkedExample()
    ensures TotalPages(95, DefaultResultsPerPage) == 10
    ensures PageRange(5, TotalPages(95, DefaultResultsPerPage))
         == [Page(1), Dots, Page(3), Page(4), Page(5), Page(6), Page(7), Dots, Page(10)]
  {
    assert TotalPages(95, DefaultResultsPerPage) == 10;
    WorkedExampleBar();
  }

  lemma WorkedExampleBar()
    ensures PageRange(5, 10) == [Page(1), Dots, Page(3), Page(4), Page(5), Page(6), Page(7), Dots, Page(10)]
  {
    WorkedExampleWindow();
    WorkedExampleDots();
  }

  lemma WorkedExampleWindow()
    ensures Window(5, 10) == [1, 3, 4, 5, 6, 7, 10]
  {
    assert Middle(3, 4, 10) == [3];
    assert Middle(3, 5, 10) == [3, 4];
    assert Middle(3, 6, 10) == [3, 4, 5];
    assert Middle(3, 7, 10) == [3, 4, 5, 6];
    assert Middle(3, 8, 10) == [3, 4, 5, 6, 7];
  }

  lemma WorkedExampleDots()
    ensures WithDots([1, 3, 4, 5, 6, 7, 10], 0)
         == [Page(1), Dots, Page(3), Page(4), Page(5), Page(6), Page(7), Dots, Page(10)]
  {
    WithDotsCons(10, [], 7);
    WithDotsCons(7, [10], 6);
    WithDotsCons(6, [7, 10], 5);
    WithDotsCons(5, [6, 7, 10], 4);
    WithDotsCons(4, [5, 6, 7, 10], 3);
    WithDotsCons(3, [4, 5, 6, 7, 10], 1);
    WithDotsCons(1, [3, 4, 5, 6, 7, 10], 0);
  }

  lemma WithDotsCons(x: int, rest: seq<int>, prev: int)
    ensures WithDots([x] + rest, prev) == (if x - prev > 1 then [Dots] else []) + [Page(x)] + WithDots(rest, x)
  {
    assert ([x] + rest)[1..] == rest;
  }

  /** Clicking a page link of the bar changes the page unless it is the current page. */
  lemma ClickOnBarEntry(currentPage: int, totalPages: int, k: nat)
    requires Shown(totalPages)
    requires k < |PageRange(currentPage, totalPages)| && PageRange(currentPage, totalPages)[k].Page?
    ensures var n := PageRange(currentPage, totalPages)[k].n;
      ClickTarget(n, currentPage, totalPages) == if n == currentPage then None else Some(n)
  {
    var r := PageRange(currentPage, totalPages);
    PageRangeShape(currentPage, totalPages);
    EntryInPages(r, k);
  }

  lemma {:induction false} EntryInPages(r: seq<Entry>, k: nat)
    requires k < |r| && r[k].Page?
    ensures r[k].n in Pages(r)
    decreases |r|
  {
    if k > 0 {
      EntryInPages(r[1..], k - 1);
    }
  }

  /**
   * For a current page within range, the previous and next buttons act exactly
   * when they are enabled (previous is disabled on page 1, next on the last page).
   */
  lemma NeighbourClicks(currentPage: int, totalPages: int)
    requires 1 <= currentPage <= totalPages
    ensures ClickTarget(currentPage - 1, currentPage, totalPages).Some? <==> currentPage != 1
    ensures ClickTarget(currentPage + 1, currentPage, totalPages).Some? <==> currentPage != totalPages
    ensures ClickTarget(1, currentPage, totalPages).Some? <==> currentPage != 1
    ensures ClickTarget(totalPages, currentPage, totalPages).Some? <==> currentPage != totalPages
  {
  }
}
