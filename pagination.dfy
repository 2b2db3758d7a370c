/** The pager `Demir\Database\Pagination`: the page count derived from the item count and
    the page size, the previous and next pages, the `LIMIT` offset, the page URLs and the
    bounded list of page links with first and last anchors and `...` markers. */
module Paging {
  import opened Wrappers
  import opened Text

  /** One entry of `getPages()`: a numbered page with its URL and whether it is the current
      one, or the `...` marker, whose URL is null and which is never current. */
  datatype Entry = Page(number: int, url: string, isCurrent: bool) | Ellipsis

  /** The exception `getInstance` raises before any pager was constructed, and the
      `TypeError` PHP raises when a method declared to return the pager returns nothing. */
  datatype PagingError = NotInitialized | NoPagerReturned

  /** `ceil(a / b)` for a non-zero divisor, on exact rationals. */
  function CeilDiv(a: int, b: int): (r: int)
    requires b != 0
    ensures b > 0 ==> (r - 1) * b < a <= r * b
    ensures b < 0 ==> (r - 1) * -b < -a <= r * -b
  {
    if b > 0 then (a + b - 1) / b else (-a - b - 1) / -b
  }

  /** `updateTotalPages`: no pages for a zero page size, otherwise the ceiling of the item
      count over the page size. */
  function TotalPagesFor(totalItems: int, perPage: int): (r: int)
    ensures perPage == 0 ==> r == 0
    ensures perPage > 0 ==> (r - 1) * perPage < totalItems <= r * perPage
    ensures perPage < 0 ==> (r - 1) * -perPage < -totalItems <= r * -perPage
  {
    if perPage == 0 then 0 else CeilDiv(totalItems, perPage)
  }

  /** `getPageUrl`: every `{number}` of the pattern replaced by the page number, that is,
      the pattern cut at its `{number}` slots and glued back with the page number. */
  function PageUrlOf(pattern: string, n: int): (r: string)
    ensures r == Join(IntToString(n), Split(pattern, "{number}"))
  {
    ReplaceAllIsSplitJoin(pattern, "{number}", IntToString(n));
    ReplaceAll(pattern, "{number}", IntToString(n))
  }

  /** `getNextPage`: the following page while there is one, `false` otherwise. */
  function NextPageOf(currentPage: int, totalPages: int): (r: Option<int>)
    ensures r.Some? <==> currentPage < totalPages
    ensures r.Some? ==> r.value == currentPage + 1
  {
    if currentPage < totalPages then Some(currentPage + 1) else None
  }

  /** `getPrevPage`: the preceding page when the current page is past the first. */
  function PrevPageOf(currentPage: int): (r: Option<int>)
    ensures r.Some? <==> currentPage > 1
    ensures r.Some? ==> r.value == currentPage - 1 && r.value >= 1
  {
    if currentPage > 1 then Some(currentPage - 1) else None
  }

  /** `getNextUrl` and `getPrevUrl`: `false` when the page getter's result is falsy, that is
      `false` or the page number 0, and that page's URL otherwise. */
  function UrlOf(pattern: string, page: Option<int>): (r: Option<string>)
    ensures r.Some? <==> page.Some? && page.value != 0
    ensures r.Some? ==> r.value == PageUrlOf(pattern, page.value)
  {
    match page
    case None => None
    case Some(n) => if n == 0 then None else Some(PageUrlOf(pattern, n))
  }

  /** `getLimit`: the offset of the current page's first item, a comma and the page size.
      The text splits at its comma into the offset `(currentPage - 1) * perPage` and the
      page size, and both read back as those numbers. */
  function LimitOf(currentPage: int, perPage: int): (r: string)
    ensures var parts := Split(r, ",");
            && parts == [IntToString((currentPage - 1) * perPage), IntToString(perPage)]
            && IsDecimal(parts[0]) && ParseInt(parts[0]) == (currentPage - 1) * perPage
            && IsDecimal(parts[1]) && ParseInt(parts[1]) == perPage
  {
    assert (currentPage - 1) * perPage == currentPage * perPage - perPage;
    DecimalPair(currentPage * perPage - perPage, perPage);
    IntToString(currentPage * perPage - perPage) + "," + IntToString(perPage)
  }

  /** Two decimal texts joined by a comma split back into the two numbers. */
  lemma DecimalPair(a: int, b: int)
    ensures var parts := Split(IntToString(a) + "," + IntToString(b), ",");
            && parts == [IntToString(a), IntToString(b)]
            && IsDecimal(parts[0]) && ParseInt(parts[0]) == a
            && IsDecimal(parts[1]) && ParseInt(parts[1]) == b
  {
    var x := IntToString(a);
    var y := IntToString(b);
    assert x + "," + y == Join([','], [x, y]);
    IntToStringChars(a);
    IntToStringChars(b);
    SplitJoinChar([x, y], ',');
    IntToStringRoundTrip(a);
    IntToStringRoundTrip(b);
  }

  // ---------------------------------------------------------------------------
  // getPages

  /** `createPage(n, n === currentPage)`. */
  function PageEntry(n: int, currentPage: int, pattern: string): (r: Entry)
    ensures r.Page? && r.number == n && (r.isCurrent <==> n == currentPage)
    ensures r.url == Join(IntToString(n), Split(pattern, "{number}"))
  {
    Page(n, PageUrlOf(pattern, n), n == currentPage)
  }

  /** The pages `lo..hi`, in order; none when `hi < lo`. */
  function Window(lo: int, hi: int, currentPage: int, pattern: string): (r: seq<Entry>)
    ensures |r| == if hi < lo then 0 else hi - lo + 1
    ensures forall k :: 0 <= k < |r| ==> r[k] == PageEntry(lo + k, currentPage, pattern)
  {
    if hi < lo then [] else seq(hi - lo + 1, k => PageEntry(lo + k, currentPage, pattern))
  }

  /** `$numAdjacents`: PHP's `floor`, which Dafny's division by 2 matches for every sign. */
  function Adjacents(maxPages: int): int
  {
    (maxPages - 3) / 2
  }

  /** `$slidingStart`: the window starts `numAdjacents` before the current page, or so that
      it ends at the last page when the current page is near the end, and never before
      page 2. */
  function SlidingStart(totalPages: int, maxPages: int, currentPage: int): int
  {
    var start := if currentPage + Adjacents(maxPages) > totalPages
                 then totalPages - maxPages + 2
                 else currentPage - Adjacents(maxPages);
    if start < 2 then 2 else start
  }

  /** `$slidingEnd`: `maxPages - 2` pages from the start, and never past the page before
      the last. */
  function SlidingEnd(totalPages: int, maxPages: int, currentPage: int): int
  {
    WindowEnd(totalPages, maxPages, SlidingStart(totalPages, maxPages, currentPage))
  }

  /** The end of a window of `maxPages - 2` pages that starts at `start`, cut at the page
      before the last. */
  function WindowEnd(totalPages: int, maxPages: int, start: int): int
  {
    var end := start + maxPages - 3;
    if end >= totalPages then totalPages - 1 else end
  }

  /** What `getPages()` returns: nothing for at most one page, every page when they all
      fit, and otherwise the first page, a marker when the window does not start at page 2,
      the window, a marker when it does not end at the page before the last, and the last
      page. */
  function PageList(totalPages: int, maxPages: int, currentPage: int, pattern: string): seq<Entry>
  {
    if totalPages <= 1 then []
    else if totalPages <= maxPages then Window(1, totalPages, currentPage, pattern)
    else Layout(totalPages, currentPage, pattern, SlidingStart(totalPages, maxPages, currentPage),
                SlidingEnd(totalPages, maxPages, currentPage))
  }

  /** The list around a window `s..e`: page 1, a marker when the window does not start at
      page 2, the window, a marker when it does not end at the page before the last, and the
      last page. */
  function Layout(totalPages: int, currentPage: int, pattern: string, s: int, e: int): seq<Entry>
  {
    [PageEntry(1, currentPage, pattern)]
      + (if s > 2 then [Ellipsis] else [])
      + Window(s, e, currentPage, pattern)
      + (if e < totalPages - 1 then [Ellipsis] else [])
      + [PageEntry(totalPages, currentPage, pattern)]
  }

  lemma WindowSnoc(lo: int, i: int, currentPage: int, pattern: string)
    requires lo <= i
    ensures Window(lo, i, currentPage, pattern)
         == Window(lo, i - 1, currentPage, pattern) + [PageEntry(i, currentPage, pattern)]
  {
  }

  /** The number of numbered entries. */
  function PageCount(entries: seq<Entry>): nat
  {
    if entries == [] then 0 else (if entries[0].Page? then 1 else 0) + PageCount(entries[1..])
  }

  // ---------------------------------------------------------------------------
  // What the page list promises

  /** Where the window lies when the pages do not all fit: after page 1, before the last
      page, at most `maxPages - 2` pages long, and empty only when `maxPages` is 4 and the
      current page is the last. */
  lemma SlidingBounds(totalPages: int, maxPages: int, currentPage: int)
    requires totalPages > maxPages > 3
    ensures 2 <= SlidingStart(totalPages, maxPages, currentPage)
    ensures SlidingEnd(totalPages, maxPages, currentPage) <= totalPages - 1
    ensures SlidingEnd(totalPages, maxPages, currentPage)
         <= SlidingStart(totalPages, maxPages, currentPage) + maxPages - 3
    ensures SlidingStart(totalPages, maxPages, currentPage) > SlidingEnd(totalPages, maxPages, currentPage)
        <==> maxPages == 4 && currentPage == totalPages
    ensures SlidingStart(totalPages, maxPages, currentPage) > SlidingEnd(totalPages, maxPages, currentPage) ==>
              SlidingStart(totalPages, maxPages, currentPage) == totalPages
              && SlidingEnd(totalPages, maxPages, currentPage) == totalPages - 1
  {
    var adj := Adjacents(maxPages);
    assert 0 <= adj && 2 * adj <= maxPages - 3 && (adj == 0 <==> maxPages == 4);
  }

  /** A current page strictly between the anchors always lies in the window. */
  lemma SlidingCovers(totalPages: int, maxPages: int, currentPage: int)
    requires totalPages > maxPages > 3 && 2 <= currentPage <= totalPages - 1
    ensures SlidingStart(totalPages, maxPages, currentPage) <= currentPage
    ensures currentPage <= SlidingEnd(totalPages, maxPages, currentPage)
  {
    var adj := Adjacents(maxPages);
    assert 0 <= adj && 2 * adj <= maxPages - 3;
  }

  /** The entries of a layout, position by position. */
  lemma LayoutAt(totalPages: int, currentPage: int, pattern: string, s: int, e: int)
    ensures var r := Layout(totalPages, currentPage, pattern, s, e);
            var a := if s > 2 then 1 else 0;
            var w := if e < s then 0 else e - s + 1;
            var b := if e < totalPages - 1 then 1 else 0;
            && |r| == 2 + a + w + b
            && r[0] == PageEntry(1, currentPage, pattern)
            && r[|r| - 1] == PageEntry(totalPages, currentPage, pattern)
            && (forall i :: 1 <= i < 1 + a ==> r[i] == Ellipsis)
            && (forall i :: 1 + a <= i < 1 + a + w ==> r[i] == PageEntry(s + i - 1 - a, currentPage, pattern))
            && (forall i :: 1 + a + w <= i < |r| - 1 ==> r[i] == Ellipsis)
  {
    var r := Layout(totalPages, currentPage, pattern, s, e);
    var first := [PageEntry(1, currentPage, pattern)];
    var before: seq<Entry> := if s > 2 then [Ellipsis] else [];
    var window := Window(s, e, currentPage, pattern);
    var after: seq<Entry> := if e < totalPages - 1 then [Ellipsis] else [];
    var last := [PageEntry(totalPages, currentPage, pattern)];
    assert r == first + before + window + after + last;
    var a := |before|;
    var w := |window|;
    forall i | 1 + a <= i < 1 + a + w
      ensures r[i] == PageEntry(s + i - 1 - a, currentPage, pattern)
    {
      assert r[i] == window[i - 1 - a];
    }
    forall i | 1 + a + w <= i < |r| - 1
      ensures r[i] == Ellipsis
    {
      assert r[i] == after[i - 1 - a - w];
    }
  }

  /** The entries of the page list when the pages do not all fit. */
  lemma PageListAt(totalPages: int, maxPages: int, currentPage: int, pattern: string)
    requires totalPages > maxPages > 3
    ensures var r := PageList(totalPages, maxPages, currentPage, pattern);
            var s := SlidingStart(totalPages, maxPages, currentPage);
            var e := SlidingEnd(totalPages, maxPages, currentPage);
            var a := if s > 2 then 1 else 0;
            var w := if e < s then 0 else e - s + 1;
            var b := if e < totalPages - 1 then 1 else 0;
            && |r| == 2 + a + w + b
            && r[0] == PageEntry(1, currentPage, pattern)
            && r[|r| - 1] == PageEntry(totalPages, currentPage, pattern)
            && (forall i :: 1 <= i < 1 + a ==> r[i] == Ellipsis)
            && (forall i :: 1 + a <= i < 1 + a + w ==> r[i] == PageEntry(s + i - 1 - a, currentPage, pattern))
            && (forall i :: 1 + a + w <= i < |r| - 1 ==> r[i] == Ellipsis)
  {
    LayoutAt(totalPages, currentPage, pattern, SlidingStart(totalPages, maxPages, currentPage),
             SlidingEnd(totalPages, maxPages, currentPage));
  }

  /** The anchors: page 1 first and the last page last, whenever the pages do not all fit. */
  lemma Anchors(totalPages: int, maxPages: int, currentPage: int, pattern: string)
    requires totalPages > maxPages > 3
    ensures var r := PageList(totalPages, maxPages, currentPage, pattern);
            |r| >= 2 && r[0] == PageEntry(1, currentPage, pattern)
            && r[|r| - 1] == PageEntry(totalPages, currentPage, pattern)
  {
    PageListAt(totalPages, maxPages, currentPage, pattern);
  }

  /** Every page between the anchors lies strictly between page 1 and the last page. */
  lemma WindowInside(totalPages: int, maxPages: int, currentPage: int, pattern: string)
    requires totalPages > maxPages > 3
    ensures var r := PageList(totalPages, maxPages, currentPage, pattern);
            forall i :: 0 < i < |r| - 1 && r[i].Page? ==> 2 <= r[i].number <= totalPages - 1
  {
    PageListAt(totalPages, maxPages, currentPage, pattern);
    SlidingBounds(totalPages, maxPages, currentPage);
  }

  /** The page numbers of the list strictly increase. */
  lemma NumbersIncrease(totalPages: int, maxPages: int, currentPage: int, pattern: string)
    requires maxPages > 3
    ensures var r := PageList(totalPages, maxPages, currentPage, pattern);
            forall i, j :: 0 <= i < j < |r| && r[i].Page? && r[j].Page? ==> r[i].number < r[j].number
  {
    if totalPages > maxPages {
      PageListAt(totalPages, maxPages, currentPage, pattern);
      SlidingBounds(totalPages, maxPages, currentPage);
    }
  }

  /** Exactly the entry numbered with the current page is marked current; a `...` never is. */
  lemma CurrentMarked(totalPages: int, maxPages: int, currentPage: int, pattern: string)
    requires maxPages > 3
    ensures var r := PageList(totalPages, maxPages, currentPage, pattern);
            forall i :: 0 <= i < |r| ==>
              (r[i].Page? ==> r[i].url == PageUrlOf(pattern, r[i].number)
                              && (r[i].isCurrent <==> r[i].number == currentPage))
  {
    if totalPages > maxPages {
      PageListAt(totalPages, maxPages, currentPage, pattern);
    }
  }

  /** A current page within range always has its entry in the list. */
  lemma CurrentShown(totalPages: int, maxPages: int, currentPage: int, pattern: string)
    requires maxPages > 3 && totalPages > 1 && 1 <= currentPage <= totalPages
    ensures PageEntry(currentPage, currentPage, pattern) in PageList(totalPages, maxPages, currentPage, pattern)
  {
    var r := PageList(totalPages, maxPages, currentPage, pattern);
    if totalPages <= maxPages {
      assert r[currentPage - 1] == PageEntry(currentPage, currentPage, pattern);
    } else {
      PageListAt(totalPages, maxPages, currentPage, pattern);
      if currentPage == 1 {
        assert r[0] == PageEntry(currentPage, currentPage, pattern);
      } else if currentPage == totalPages {
        assert r[|r| - 1] == PageEntry(currentPage, currentPage, pattern);
      } else {
        SlidingCovers(totalPages, maxPages, currentPage);
        SlidingBounds(totalPages, maxPages, currentPage);
        var s := SlidingStart(totalPages, maxPages, currentPage);
        var a := if s > 2 then 1 else 0;
        assert r[1 + a + currentPage - s] == PageEntry(currentPage, currentPage, pattern);
      }
    }
  }

  /** No more than `maxPages` numbered entries. */
  lemma AtMostMaxPages(totalPages: int, maxPages: int, currentPage: int, pattern: string)
    requires maxPages > 3
    ensures PageCount(PageList(totalPages, maxPages, currentPage, pattern)) <= maxPages
  {
    var r := PageList(totalPages, maxPages, currentPage, pattern);
    if totalPages <= 1 {
    } else if totalPages <= maxPages {
      PageCountAllPages(r);
    } else {
      PageListAt(totalPages, maxPages, currentPage, pattern);
      SlidingBounds(totalPages, maxPages, currentPage);
      PageCountLayout(totalPages, currentPage, pattern, SlidingStart(totalPages, maxPages, currentPage),
                      SlidingEnd(totalPages, maxPages, currentPage));
    }
  }

  /** Two neighbouring numbered entries are consecutive pages: no number is skipped
      without a `...`. */
  lemma NeighboursConsecutive(totalPages: int, maxPages: int, currentPage: int, pattern: string)
    requires maxPages > 3
    ensures var r := PageList(totalPages, maxPages, currentPage, pattern);
            forall i :: 0 <= i < |r| - 1 && r[i].Page? && r[i + 1].Page? ==>
              r[i + 1].number == r[i].number + 1
  {
    if totalPages > maxPages {
      PageListAt(totalPages, maxPages, currentPage, pattern);
      SlidingBounds(totalPages, maxPages, currentPage);
    }
  }

  /** A `...` stands only where numbers are skipped: it sits between two numbered entries
      with at least one page missing between them. */
  lemma EllipsisMarksGaps(totalPages: int, maxPages: int, currentPage: int, pattern: string)
    requires maxPages > 3
    ensures var r := PageList(totalPages, maxPages, currentPage, pattern);
            forall i :: 0 <= i < |r| && r[i].Ellipsis? ==>
              0 < i < |r| - 1 && r[i - 1].Page? && r[i + 1].Page?
              && r[i + 1].number > r[i - 1].number + 1
  {
    if totalPages > maxPages {
      PageListAt(totalPages, maxPages, currentPage, pattern);
      SlidingBounds(totalPages, maxPages, currentPage);
    }
  }

  /** A `...` follows page 1 exactly when the window starts after page 2. */
  lemma FirstEllipsis(totalPages: int, maxPages: int, currentPage: int, pattern: string)
    requires totalPages > maxPages > 3
    ensures var r := PageList(totalPages, maxPages, currentPage, pattern);
            r[1].Ellipsis? <==> SlidingStart(totalPages, maxPages, currentPage) > 2
  {
    PageListAt(totalPages, maxPages, currentPage, pattern);
    SlidingBounds(totalPages, maxPages, currentPage);
  }

  /** A `...` precedes the last page exactly when the window ends before the page before
      the last, or when the window is empty. */
  lemma LastEllipsis(totalPages: int, maxPages: int, currentPage: int, pattern: string)
    requires totalPages > maxPages > 3
    ensures var r := PageList(totalPages, maxPages, currentPage, pattern);
            (r[|r| - 2].Ellipsis?
             <==> SlidingEnd(totalPages, maxPages, currentPage) < totalPages - 1
                  || SlidingStart(totalPages, maxPages, currentPage) > SlidingEnd(totalPages, maxPages, currentPage))
  {
    PageListAt(totalPages, maxPages, currentPage, pattern);
    SlidingBounds(totalPages, maxPages, currentPage);
  }

  lemma {:induction false} PageCountConcat(a: seq<Entry>, b: seq<Entry>)
    ensures PageCount(a + b) == PageCount(a) + PageCount(b)
    decreases |a|
  {
    if a == [] {
      assert a + b == b;
    } else {
      assert (a + b)[1..] == a[1..] + b;
      PageCountConcat(a[1..], b);
    }
  }

  lemma {:induction false} PageCountAllPages(w: seq<Entry>)
    requires forall k :: 0 <= k < |w| ==> w[k].Page?
    ensures PageCount(w) == |w|
    decreases |w|
  {
    if w != [] {
      PageCountAllPages(w[1..]);
    }
  }

  /** The anchors and the window are the numbered entries of a layout. */
  lemma PageCountLayout(totalPages: int, currentPage: int, pattern: string, s: int, e: int)
    ensures PageCount(Layout(totalPages, currentPage, pattern, s, e)) == 2 + (if e < s then 0 else e - s + 1)
  {
    var first := [PageEntry(1, currentPage, pattern)];
    var before: seq<Entry> := if s > 2 then [Ellipsis] else [];
    var window := Window(s, e, currentPage, pattern);
    var after: seq<Entry> := if e < totalPages - 1 then [Ellipsis] else [];
    var last := [PageEntry(totalPages, currentPage, pattern)];
    PageCountConcat(first + before + window + after, last);
    PageCountConcat(first + before + window, after);
    PageCountConcat(first + before, window);
    PageCountConcat(first, before);
    PageCountAllPages(window);
  }

  // ---------------------------------------------------------------------------
  // Neighbouring pages, URLs and the LIMIT text

  /** The page after the current one has the current one before it. */
  lemma NextThenPrev(currentPage: int, totalPages: int)
    requires currentPage >= 1 && NextPageOf(currentPage, totalPages).Some?
    ensures PrevPageOf(NextPageOf(currentPage, totalPages).value) == Some(currentPage)
  {
  }

  /** The page before the current one has the current one after it. */
  lemma PrevThenNext(currentPage: int, totalPages: int)
    requires currentPage <= totalPages && PrevPageOf(currentPage).Some?
    ensures NextPageOf(PrevPageOf(currentPage).value, totalPages) == Some(currentPage)
  {
  }

  /** A pattern without a slot is the URL of every page. */
  lemma PatternWithoutSlot(pattern: string, n: int)
    requires !Contains(pattern, "{number}")
    ensures PageUrlOf(pattern, n) == pattern
  {
    ReplaceAllAbsent(pattern, "{number}", IntToString(n));
  }

  /** The default pattern gives `?page=` followed by the page number, which reads back as
      that number. */
  lemma DefaultPatternUrl(n: int)
    ensures PageUrlOf("?page={number}", n) == "?page=" + IntToString(n)
    ensures ParseInt(PageUrlOf("?page={number}", n)[6..]) == n
  {
    assert "?page={number}" == "?page=" + "{number}";
    ReplaceAllConcat("?page=", "{number}", "{number}", IntToString(n));
    assert ReplaceAll("{number}", "{number}", IntToString(n)) == IntToString(n) + ReplaceAll("", "{number}", IntToString(n));
    IntToStringRoundTrip(n);
    assert ("?page=" + IntToString(n))[6..] == IntToString(n);
  }

  // ---------------------------------------------------------------------------
  // The window one page short

  /** As written, with ten pages and room for seven entries, current page 8 gets a window
      of four pages where pages 7 and 9 get five: the list numbers six pages, not seven. */
  lemma ShortWindowBeforeEnd(pattern: string)
    ensures PageCount(PageList(10, 7, 7, pattern)) == 7
    ensures PageCount(PageList(10, 7, 8, pattern)) == 6
    ensures PageCount(PageList(10, 7, 9, pattern)) == 7
  {
    assert SlidingStart(10, 7, 7) == 5 && SlidingEnd(10, 7, 7) == 9;
    assert SlidingStart(10, 7, 8) == 6 && SlidingEnd(10, 7, 8) == 9;
    assert SlidingStart(10, 7, 9) == 5 && SlidingEnd(10, 7, 9) == 9;
    PageCountLayout(10, 7, pattern, 5, 9);
    PageCountLayout(10, 8, pattern, 6, 9);
    PageCountLayout(10, 9, pattern, 5, 9);
  }

  /** The start the window evidently should have: `numAdjacents` before the current page,
      moved back so that the window ends at the page before the last as soon as it would
      reach past it (for an odd `maxPages`, `>=` in place of `>`), and never before page 2. */
  function IntendedSlidingStart(totalPages: int, maxPages: int, currentPage: int): int
  {
    var start := currentPage - Adjacents(maxPages);
    var moved := if start + maxPages - 3 > totalPages - 1 then totalPages - maxPages + 2 else start;
    if moved < 2 then 2 else moved
  }

  /** The page list with the intended window. */
  function IntendedPageList(totalPages: int, maxPages: int, currentPage: int, pattern: string): seq<Entry>
  {
    if totalPages <= 1 then []
    else if totalPages <= maxPages then Window(1, totalPages, currentPage, pattern)
    else
      var s := IntendedSlidingStart(totalPages, maxPages, currentPage);
      Layout(totalPages, currentPage, pattern, s, WindowEnd(totalPages, maxPages, s))
  }

  /** With the intended window, a list that cannot show every page shows exactly
      `maxPages` of them, and always the current one. */
  lemma IntendedWindowIsFull(totalPages: int, maxPages: int, currentPage: int, pattern: string)
    requires totalPages > maxPages > 3 && 1 <= currentPage <= totalPages
    ensures PageCount(IntendedPageList(totalPages, maxPages, currentPage, pattern)) == maxPages
    ensures PageEntry(currentPage, currentPage, pattern) in IntendedPageList(totalPages, maxPages, currentPage, pattern)
  {
    var r := IntendedPageList(totalPages, maxPages, currentPage, pattern);
    var s := IntendedSlidingStart(totalPages, maxPages, currentPage);
    var e := WindowEnd(totalPages, maxPages, s);
    var adj := Adjacents(maxPages);
    assert 0 <= adj && 2 * adj <= maxPages - 3;
    assert 2 <= s <= totalPages - maxPages + 2 && e == s + maxPages - 3;
    PageCountLayout(totalPages, currentPage, pattern, s, e);
    LayoutAt(totalPages, currentPage, pattern, s, e);
    if currentPage == 1 {
      assert r[0] == PageEntry(currentPage, currentPage, pattern);
    } else if currentPage == totalPages {
      assert r[|r| - 1] == PageEntry(currentPage, currentPage, pattern);
    } else {
      assert s <= currentPage <= e;
      var a := if s > 2 then 1 else 0;
      assert r[1 + a + currentPage - s] == PageEntry(currentPage, currentPage, pattern);
    }
  }

  // ---------------------------------------------------------------------------
  // The pager object

  class Pagination {
    var totalItems: int
    var totalPages: int
    var perPage: int
    var currentPage: int
    var pattern: string
    var maxPages: int

    /** The page count always matches the item count and page size, and the window has
        room for at least one page between the anchors. */
    predicate Valid()
      reads this
    {
      totalPages == TotalPagesFor(totalItems, perPage) && maxPages > 3
    }

    constructor (totalItems: int, perPage: int := 10, currentPage: int := 1,
                 pattern: string := "?page={number}")
      ensures this.totalItems == totalItems && this.perPage == perPage
      ensures this.currentPage == currentPage && this.pattern == pattern
      ensures maxPages == 7 && Valid()
    {
      this.totalItems := totalItems;
      this.perPage := perPage;
      this.currentPage := currentPage;
      this.pattern := pattern;
      maxPages := 7;
      totalPages := 0;
      new;
      UpdateTotalPages();
    }

    /** `updateTotalPages()`. */
    method UpdateTotalPages()
      modifies this`totalPages
      ensures totalPages == TotalPagesFor(totalItems, perPage)
    {
      if perPage == 0 {
        totalPages := 0;
      } else {
        totalPages := CeilDiv(totalItems, perPage);
      }
    }

    /** `setMaxPages(n)` as written: the bound takes effect only above three, and then the
        method falls off its end although it is declared to return the pager, so every call
        ends in PHP's `TypeError` and a chain through it breaks. */
    method SetMaxPagesAsWritten(n: int) returns (outcome: Outcome<PagingError>)
      requires Valid()
      modifies this`maxPages
      ensures maxPages == if n > 3 then n else old(maxPages)
      ensures outcome == Fail(NoPagerReturned) && Valid()
    {
      if n > 3 {
        maxPages := n;
      }
      outcome := Fail(NoPagerReturned);
    }

    /** `setMaxPages(n)` returning the pager like the other setters: takes effect only for
        more than three pages, so the window always has room for a page. */
    method SetMaxPages(n: int)
      requires Valid()
      modifies this`maxPages
      ensures maxPages == if n > 3 then n else old(maxPages)
      ensures Valid()
    {
      if n > 3 {
        maxPages := n;
      }
    }

    method SetCurrentPage(n: int)
      requires Valid()
      modifies this`currentPage
      ensures currentPage == n && Valid()
    {
      currentPage := n;
    }

    /** `setPerPage(n)`: the page count follows. */
    method SetPerPage(n: int)
      requires Valid()
      modifies this`perPage, this`totalPages
      ensures perPage == n && totalPages == TotalPagesFor(totalItems, n) && Valid()
    {
      perPage := n;
      UpdateTotalPages();
    }

    /** `setTotalItems(n)`: the page count follows. */
    method SetTotalItems(n: int)
      requires Valid()
      modifies this`totalItems, this`totalPages
      ensures totalItems == n && totalPages == TotalPagesFor(n, perPage) && Valid()
    {
      totalItems := n;
      UpdateTotalPages();
    }

    method SetPattern(p: string)
      requires Valid()
      modifies this`pattern
      ensures pattern == p && Valid()
    {
      pattern := p;
    }

    /** `getPageUrl(n)`: the pattern with every `{number}` slot filled with `n`. */
    function PageUrl(n: int): (r: string)
      reads this
      ensures r == Join(IntToString(n), Split(pattern, "{number}"))
    {
      PageUrlOf(pattern, n)
    }

    /** `getNextPage()`: the following page exactly while the current page is before the
        last. */
    function NextPage(): (r: Option<int>)
      reads this
      ensures r.Some? <==> currentPage < totalPages
      ensures r.Some? ==> r.value == currentPage + 1
    {
      NextPageOf(currentPage, totalPages)
    }

    /** `getPrevPage()`: the preceding page exactly when the current page is past the
        first. */
    function PrevPage(): (r: Option<int>)
      reads this
      ensures r.Some? <==> currentPage > 1
      ensures r.Some? ==> r.value == currentPage - 1
    {
      PrevPageOf(currentPage)
    }

    /** `getNextUrl()`: `false` when there is no next page, or when it is the falsy page 0;
        otherwise the next page's URL. */
    function NextUrl(): (r: Option<string>)
      reads this
      ensures r.Some? <==> currentPage < totalPages && currentPage != -1
      ensures r.Some? ==> r.value == PageUrl(currentPage + 1)
    {
      UrlOf(pattern, NextPage())
    }

    /** `getPrevUrl()`: `false` on the first page (a previous page is never 0), otherwise
        the previous page's URL. */
    function PrevUrl(): (r: Option<string>)
      reads this
      ensures r.Some? <==> currentPage > 1
      ensures r.Some? ==> r.value == PageUrl(currentPage - 1)
    {
      UrlOf(pattern, PrevPage())
    }

    /** `getLimit()`: splits at its comma into the offset `(currentPage - 1) * perPage`
        and the page size. */
    function Limit(): (r: string)
      reads this
      ensures Split(r, ",") == [IntToString((currentPage - 1) * perPage), IntToString(perPage)]
      ensures ParseInt(Split(r, ",")[0]) == (currentPage - 1) * perPage
      ensures ParseInt(Split(r, ",")[1]) == perPage
    {
      LimitOf(currentPage, perPage)
    }

    /** `createPage(n, current)`: page `n` with its own URL and the given mark. */
    function CreatePage(n: int, current: bool): (r: Entry)
      reads this
      ensures r.Page? && r.number == n && r.isCurrent == current
      ensures r.url == Join(IntToString(n), Split(pattern, "{number}"))
    {
      Page(n, PageUrl(n), current)
    }

    /** `getPages()`. */
    method GetPages() returns (pages: seq<Entry>)
      ensures pages == PageList(totalPages, maxPages, currentPage, pattern)
      ensures Valid() ==> PageCount(pages) <= maxPages
    {
      if Valid() {
        AtMostMaxPages(totalPages, maxPages, currentPage, pattern);
      }
      pages := [];
      if totalPages <= 1 {
        return;
      }
      if totalPages <= maxPages {
        pages := AppendPages(pages, 1, totalPages);
        assert [] + Window(1, totalPages, currentPage, pattern) == Window(1, totalPages, currentPage, pattern);
      } else {
        var numAdjacents := (maxPages - 3) / 2;
        var slidingStart;
        if currentPage + numAdjacents > totalPages {
          slidingStart := totalPages - maxPages + 2;
        } else {
          slidingStart := currentPage - numAdjacents;
        }
        if slidingStart < 2 {
          slidingStart := 2;
        }
        var slidingEnd := slidingStart + maxPages - 3;
        if slidingEnd >= totalPages {
          slidingEnd := totalPages - 1;
        }
        assert slidingStart == SlidingStart(totalPages, maxPages, currentPage);
        assert slidingEnd == SlidingEnd(totalPages, maxPages, currentPage);
        ghost var before: seq<Entry> := if slidingStart > 2 then [Ellipsis] else [];
        ghost var after: seq<Entry> := if slidingEnd < totalPages - 1 then [Ellipsis] else [];
        pages := pages + [CreatePage(1, currentPage == 1)];
        if slidingStart > 2 {
          pages := pages + [Ellipsis];
        }
        assert pages == [PageEntry(1, currentPage, pattern)] + before;
        pages := AppendPages(pages, slidingStart, slidingEnd);
        if slidingEnd < totalPages - 1 {
          pages := pages + [Ellipsis];
        }
        assert pages == [PageEntry(1, currentPage, pattern)] + before
                        + Window(slidingStart, slidingEnd, currentPage, pattern) + after;
        pages := pages + [CreatePage(totalPages, currentPage == totalPages)];
      }
    }

    /** The `for` loop of `getPages()`: `createPage(i, i === currentPage)` appended for each
        `i` from `lo` to `hi`. */
    method AppendPages(pages: seq<Entry>, lo: int, hi: int) returns (r: seq<Entry>)
      ensures r == pages + Window(lo, hi, currentPage, pattern)
    {
      r := pages;
      var i := lo;
      while i <= hi
        invariant lo <= i && (i <= hi + 1 || i == lo)
        invariant r == pages + Window(lo, i - 1, currentPage, pattern)
      {
        WindowSnoc(lo, i, currentPage, pattern);
        r := r + [CreatePage(i, i == currentPage)];
        i := i + 1;
      }
    }
  }

  /** The library's pagination walk-through: six items, two per page, on page 1. The
      LIMIT text asks for the first two items and the list links the three pages, the
      first marked current; moved to page 2, the LIMIT text asks for the next two. */
  method SixItemsTwoPerPage() returns (limit: string, pages: seq<Entry>, secondLimit: string)
    ensures limit == "0,2" && secondLimit == "2,2"
    ensures pages == [Page(1, "?page=1", true), Page(2, "?page=2", false), Page(3, "?page=3", false)]
  {
    var pager := new Pagination(6, 2, 1);
    limit := pager.Limit();
    pages := pager.GetPages();
    pager.SetCurrentPage(2);
    secondLimit := pager.Limit();
    SixItemsPages();
  }

  lemma SixItemsPages()
    ensures TotalPagesFor(6, 2) == 3 && LimitOf(1, 2) == "0,2" && LimitOf(2, 2) == "2,2"
    ensures PageList(3, 7, 1, "?page={number}")
         == [Page(1, "?page=1", true), Page(2, "?page=2", false), Page(3, "?page=3", false)]
  {
    SixItemsLimits();
    SmallNumbers();
    FirstUrls();
    var w := Window(1, 3, 1, "?page={number}");
    assert |w| == 3;
    assert w[0] == Page(1, "?page=1", true);
    assert w[1] == Page(2, "?page=2", false);
    assert w[2] == Page(3, "?page=3", false);
  }

  /** The LIMIT texts of pages 1 and 2 at two items per page. */
  lemma SixItemsLimits()
    ensures LimitOf(1, 2) == "0,2" && LimitOf(2, 2) == "2,2"
  {
    SmallNumbers();
    assert IntToString(0) + "," + IntToString(2) == "0,2";
    assert IntToString(2) + "," + IntToString(2) == "2,2";
  }

  lemma FirstUrls()
    ensures PageUrlOf("?page={number}", 1) == "?page=1"
    ensures PageUrlOf("?page={number}", 2) == "?page=2"
    ensures PageUrlOf("?page={number}", 3) == "?page=3"
  {
    SmallNumbers();
    DefaultPatternUrl(1);
    DefaultPatternUrl(2);
    DefaultPatternUrl(3);
    assert "?page=" + "1" == "?page=1" && "?page=" + "2" == "?page=2" && "?page=" + "3" == "?page=3";
  }

  lemma SmallNumbers()
    ensures IntToString(0) == "0" && IntToString(1) == "1" && IntToString(2) == "2" && IntToString(3) == "3"
  {
    assert NatToString(0) == "0";
    assert NatToString(1) == "1";
    assert NatToString(2) == "2";
    assert NatToString(3) == "3";
  }

  /** The holder of `Pagination::$instance`, the pager constructed last. */
  class PaginationSlot {
    var instance: Option<Pagination>

    constructor ()
      ensures instance.None?
    {
      instance := None;
    }

    /** `new Pagination(...)`, which also records the new pager as the instance. */
    method Construct(totalItems: int, perPage: int := 10, currentPage: int := 1,
                     pattern: string := "?page={number}")
      returns (p: Pagination)
      modifies this
      ensures fresh(p) && p.Valid() && instance == Some(p)
      ensures p.totalItems == totalItems && p.perPage == perPage
      ensures p.currentPage == currentPage && p.pattern == pattern && p.maxPages == 7
    {
      p := new Pagination(totalItems, perPage, currentPage, pattern);
      instance := Some(p);
    }

    /** `getInstance()`: the last pager constructed, or an error before the first. */
    method GetInstance() returns (r: Result<Pagination, PagingError>)
      ensures instance.None? ==> r == Failure(NotInitialized)
      ensures instance.Some? ==> r == Success(instance.value)
    {
      match instance {
        case None => r := Failure(NotInitialized);
        case Some(p) => r := Success(p);
      }
    }
  }
}
