/**
 * The two pieces of plain logic in the page's script: the window of page
 * buttons that `buildPaginationButtons` appends to the pagination bar, and
 * `escapeHTML`, which the table rows pass the name, form, town, agent and
 * date cells through (the organisation number is inserted unescaped).
 */
module PageScript {
  import opened JsonValues

  /** What the pagination bar receives, left to right: a page button or an "..." marker. */
  datatype PageItem = PageButton(page: int) | Ellipsis

  /** Up to this many pages every page gets a button. */
  const MaxButtons: int := 7

  function Max(a: int, b: int): int { if a >= b then a else b }
  function Min(a: int, b: int): int { if a <= b then a else b }

  /** Buttons for the pages `lo..hi`, in order; none when `lo > hi`. */
  function Pages(lo: int, hi: int): seq<PageItem>
  {
    seq(if lo <= hi then hi - lo + 1 else 0, i => PageButton(lo + i))
  }

  /** One more page at the right end. */
  lemma PagesSnoc(lo: int, hi: int)
    requires lo <= hi + 1
    ensures Pages(lo, hi + 1) == Pages(lo, hi) + [PageButton(hi + 1)]
  {
  }

  /**
   * The middle window `(start, end)` when there are more than seven pages:
   * always five consecutive pages inside `1..totalPages`, holding the
   * current page when that is a valid page, and centred on it when it is at
   * least three pages away from the last and not among the first three;
   * otherwise pulled in to pages 1..5 or to the last five pages.
   */
  function Window(totalPages: int, currentPage: int): (w: (int, int))
    requires totalPages > MaxButtons
    ensures w.1 - w.0 == 4
    ensures 1 <= w.0 && w.1 <= totalPages
    ensures 1 <= currentPage <= totalPages ==> w.0 <= currentPage <= w.1
    ensures 4 <= currentPage <= totalPages - 3 ==> w == (currentPage - 2, currentPage + 2)
    ensures currentPage < 4 ==> w == (1, 5)
    ensures currentPage > totalPages - 3 ==> w == (totalPages - 4, totalPages)
  {
    var start := Max(1, currentPage - 2);
    var end := Min(totalPages, currentPage + 2);
    var end' := if currentPage < 4 then 5 else end;
    var start' := if currentPage > totalPages - 3 then totalPages - 4 else start;
    (start', end')
  }

  /** Page 1 and, when the window starts after page 2, an ellipsis. */
  function LeadItems(start: int): seq<PageItem>
  {
    if start > 1 then [PageButton(1)] + (if start > 2 then [Ellipsis] else []) else []
  }

  /** When the window ends before the last page, an ellipsis if pages are skipped, then the last page. */
  function TrailItems(end: int, totalPages: int): seq<PageItem>
  {
    if end < totalPages then (if end < totalPages - 1 then [Ellipsis] else []) + [PageButton(totalPages)] else []
  }

  /** The items `buildPaginationButtons` appends, in order. */
  function PaginationItems(totalPages: int, currentPage: int): seq<PageItem>
  {
    if totalPages <= MaxButtons then Pages(1, totalPages)
    else
      var w := Window(totalPages, currentPage);
      LeadItems(w.0) + Pages(w.0, w.1) + TrailItems(w.1, totalPages)
  }

  /** Page numbers grow from left to right. */
  predicate PagesIncreasing(items: seq<PageItem>)
  {
    forall i, j :: 0 <= i < j < |items| && items[i].PageButton? && items[j].PageButton? ==>
      items[i].page < items[j].page
  }

  /** Every ellipsis sits between two buttons whose pages are not neighbours. */
  predicate EllipsesMarkGaps(items: seq<PageItem>)
  {
    forall k :: 0 <= k < |items| && items[k].Ellipsis? ==>
      && 0 < k < |items| - 1
      && items[k - 1].PageButton? && items[k + 1].PageButton?
      && items[k + 1].page > items[k - 1].page + 1
  }

  /** Two buttons side by side show neighbouring pages: every gap is marked. */
  predicate GapsAreMarked(items: seq<PageItem>)
  {
    forall k :: 0 <= k < |items| - 1 && items[k].PageButton? && items[k + 1].PageButton? ==>
      items[k + 1].page == items[k].page + 1
  }

  /** Up to seven pages: one button per page, `1..totalPages`, in order. */
  lemma SmallPagination(totalPages: int, currentPage: int)
    requires totalPages <= MaxButtons
    ensures |PaginationItems(totalPages, currentPage)| == Max(totalPages, 0)
    ensures forall i :: 0 <= i < |PaginationItems(totalPages, currentPage)| ==>
              PaginationItems(totalPages, currentPage)[i] == PageButton(i + 1)
  {
  }

  lemma FivePages(start: int)
    ensures Pages(start, start + 4)
            == [PageButton(start), PageButton(start + 1), PageButton(start + 2), PageButton(start + 3), PageButton(start + 4)]
  {
  }

  /**
   * More than seven pages: the first and the last page are always shown, the
   * five-page window is shown in full, and there is an ellipsis after page 1
   * exactly when the window starts after page 2 and one before the last page
   * exactly when the window ends before the page preceding it.
   */
  lemma LargePagination(totalPages: int, currentPage: int)
    requires totalPages > MaxButtons
    ensures var items := PaginationItems(totalPages, currentPage);
            var w := Window(totalPages, currentPage);
            && 7 <= |items| <= MaxButtons + 2
            && items[0] == PageButton(1)
            && items[|items| - 1] == PageButton(totalPages)
            && (items[1] == Ellipsis <==> w.0 > 2)
            && (items[|items| - 2] == Ellipsis <==> w.1 < totalPages - 1)
            && (forall p :: w.0 <= p <= w.1 ==> PageButton(p) in items)
  {
    var w := Window(totalPages, currentPage);
    FivePages(w.0);
    var items := PaginationItems(totalPages, currentPage);
    forall p | w.0 <= p <= w.1
      ensures PageButton(p) in items
    {
      assert Pages(w.0, w.1)[p - w.0] == PageButton(p);
      assert items[|LeadItems(w.0)| + (p - w.0)] == PageButton(p);
    }
  }

  /**
   * For any number of pages from one up: page 1 comes first and the last
   * page last, page numbers increase, each ellipsis marks skipped pages, no
   * skipped pages go unmarked, and the current page, when valid, is shown.
   */
  lemma PaginationShape(totalPages: int, currentPage: int)
    requires totalPages >= 1
    ensures var items := PaginationItems(totalPages, currentPage);
            && |items| > 0
            && items[0] == PageButton(1)
            && items[|items| - 1] == PageButton(totalPages)
            && PagesIncreasing(items)
            && EllipsesMarkGaps(items)
            && GapsAreMarked(items)
            && (1 <= currentPage <= totalPages ==> PageButton(currentPage) in items)
  {
    var items := PaginationItems(totalPages, currentPage);
    if totalPages <= MaxButtons {
      SmallPagination(totalPages, currentPage);
      if 1 <= currentPage <= totalPages {
        assert items[currentPage - 1] == PageButton(currentPage);
      }
    } else {
      LargePagination(totalPages, currentPage);
      var w := Window(totalPages, currentPage);
      LargeShape(w.0, totalPages);
      assert WellFormedBar(items);
      Increasing(items);
    }
  }

  /** The two local properties of a pagination bar: neighbours either follow on or are split by an ellipsis. */
  predicate WellFormedBar(items: seq<PageItem>)
  {
    EllipsesMarkGaps(items) && GapsAreMarked(items)
  }

  /** The local properties make page numbers increase along the whole bar. */
  lemma {:induction false} IncreasingBetween(items: seq<PageItem>, i: int, j: int)
    requires WellFormedBar(items)
    requires 0 <= i < j < |items| && items[i].PageButton? && items[j].PageButton?
    ensures items[i].page < items[j].page
    decreases j - i
  {
    if items[j - 1].PageButton? {
      if i < j - 1 {
        IncreasingBetween(items, i, j - 1);
      }
    } else {
      assert items[j - 2].PageButton? && items[j].page > items[j - 2].page + 1;
      if i < j - 2 {
        IncreasingBetween(items, i, j - 2);
      }
    }
  }

  lemma Increasing(items: seq<PageItem>)
    requires WellFormedBar(items)
    ensures PagesIncreasing(items)
  {
    forall i, j | 0 <= i < j < |items| && items[i].PageButton? && items[j].PageButton?
      ensures items[i].page < items[j].page
    {
      IncreasingBetween(items, i, j);
    }
  }

  /** The bars whose window starts at page 1. */
  lemma ShapeFromFirst(t: int)
    requires 5 <= t
    ensures WellFormedBar([PageButton(1), PageButton(1 + 1), PageButton(1 + 2), PageButton(1 + 3), PageButton(1 + 4)])
    ensures 6 == t ==> WellFormedBar([PageButton(1), PageButton(1 + 1), PageButton(1 + 2), PageButton(1 + 3), PageButton(1 + 4), PageButton(t)])
    ensures 6 < t ==> WellFormedBar([PageButton(1), PageButton(1 + 1), PageButton(1 + 2), PageButton(1 + 3), PageButton(1 + 4), Ellipsis, PageButton(t)])
  {
  }

  /** The bars whose window starts at page 2. */
  lemma ShapeFromSecond(t: int)
    requires 6 <= t
    ensures WellFormedBar([PageButton(1), PageButton(2), PageButton(2 + 1), PageButton(2 + 2), PageButton(2 + 3), PageButton(2 + 4)])
    ensures 7 == t ==> WellFormedBar([PageButton(1), PageButton(2), PageButton(2 + 1), PageButton(2 + 2), PageButton(2 + 3), PageButton(2 + 4), PageButton(t)])
    ensures 7 < t ==> WellFormedBar([PageButton(1), PageButton(2), PageButton(2 + 1), PageButton(2 + 2), PageButton(2 + 3), PageButton(2 + 4), Ellipsis, PageButton(t)])
  {
  }

  /** The bars whose window starts after page 2 and reaches the last page. */
  lemma ShapeFromLaterToLast(s: int, t: int)
    requires 2 < s && s + 4 == t
    ensures WellFormedBar([PageButton(1), Ellipsis, PageButton(s), PageButton(s + 1), PageButton(s + 2), PageButton(s + 3), PageButton(s + 4)])
  {
  }

  /** The bars whose window starts after page 2 and ends just before the last page. */
  lemma ShapeFromLaterToNextToLast(s: int, t: int)
    requires 2 < s && s + 4 == t - 1
    ensures WellFormedBar([PageButton(1), Ellipsis, PageButton(s), PageButton(s + 1), PageButton(s + 2), PageButton(s + 3), PageButton(s + 4), PageButton(t)])
  {
  }

  /** The bars whose window lies strictly inside, with an ellipsis on both sides. */
  lemma ShapeInside(s: int, t: int)
    requires 2 < s && s + 4 < t - 1
    ensures WellFormedBar([PageButton(1), Ellipsis, PageButton(s), PageButton(s + 1), PageButton(s + 2), PageButton(s + 3), PageButton(s + 4), Ellipsis, PageButton(t)])
  {
  }

  /** The shape of the bar with more than seven pages, case by case on the two ends of the window. */
  lemma LargeShape(s: int, totalPages: int)
    requires 1 <= s && s + 4 <= totalPages
    ensures WellFormedBar(LeadItems(s) + Pages(s, s + 4) + TrailItems(s + 4, totalPages))
  {
    var t := totalPages;
    FivePages(s);
    var items := LeadItems(s) + Pages(s, s + 4) + TrailItems(s + 4, t);
    if s == 1 {
      ShapeFromFirst(t);
      if t == 5 {
        assert items == [PageButton(1), PageButton(1 + 1), PageButton(1 + 2), PageButton(1 + 3), PageButton(1 + 4)];
      } else if t == 6 {
        assert items == [PageButton(1), PageButton(1 + 1), PageButton(1 + 2), PageButton(1 + 3), PageButton(1 + 4), PageButton(t)];
      } else {
        assert items == [PageButton(1), PageButton(1 + 1), PageButton(1 + 2), PageButton(1 + 3), PageButton(1 + 4), Ellipsis, PageButton(t)];
      }
    } else if s == 2 {
      ShapeFromSecond(t);
      if t == 6 {
        assert items == [PageButton(1), PageButton(2), PageButton(2 + 1), PageButton(2 + 2), PageButton(2 + 3), PageButton(2 + 4)];
      } else if t == 7 {
        assert items == [PageButton(1), PageButton(2), PageButton(2 + 1), PageButton(2 + 2), PageButton(2 + 3), PageButton(2 + 4), PageButton(t)];
      } else {
        assert items == [PageButton(1), PageButton(2), PageButton(2 + 1), PageButton(2 + 2), PageButton(2 + 3), PageButton(2 + 4), Ellipsis, PageButton(t)];
      }
    } else if s + 4 == t {
      ShapeFromLaterToLast(s, t);
      assert items == [PageButton(1), Ellipsis, PageButton(s), PageButton(s + 1), PageButton(s + 2), PageButton(s + 3), PageButton(s + 4)];
    } else if s + 4 == t - 1 {
      ShapeFromLaterToNextToLast(s, t);
      assert items == [PageButton(1), Ellipsis, PageButton(s), PageButton(s + 1), PageButton(s + 2), PageButton(s + 3), PageButton(s + 4), PageButton(t)];
    } else {
      ShapeInside(s, t);
      assert items == [PageButton(1), Ellipsis, PageButton(s), PageButton(s + 1), PageButton(s + 2), PageButton(s + 3), PageButton(s + 4), Ellipsis, PageButton(t)];
    }
  }

  /**
   * `buildPaginationButtons`: with at most seven pages a loop appends every
   * page; otherwise the window is computed, page 1 and an ellipsis are
   * appended as needed, a loop appends the window, then an ellipsis and the
   * last page as needed.
   */
  method BuildPaginationButtons(totalPages: int, currentPage: int) returns (items: seq<PageItem>)
    ensures items == PaginationItems(totalPages, currentPage)
  {
    items := [];
    if totalPages <= MaxButtons {
      items := AppendPages(items, 1, totalPages);
    } else {
      var start, end := WindowOf(totalPages, currentPage);
      if start > 1 {
        items := items + [PageButton(1)];
        if start > 2 {
          items := items + [Ellipsis];
        }
      }
      assert items == LeadItems(start);
      items := AppendPages(items, start, end);
      if end < totalPages {
        if end < totalPages - 1 {
          items := items + [Ellipsis];
        }
        items := items + [PageButton(totalPages)];
      }
    }
  }

  /** The loop that appends one button per page from `lo` to `hi`. */
  method AppendPages(before: seq<PageItem>, lo: int, hi: int) returns (items: seq<PageItem>)
    ensures items == before + Pages(lo, hi)
  {
    items := before;
    var i := lo;
    while i <= hi
      invariant lo <= i <= Max(hi, lo - 1) + 1
      invariant items == before + Pages(lo, i - 1)
    {
      PagesSnoc(lo, i - 1);
      items := items + [PageButton(i)];
      i := i + 1;
    }
    assert Pages(lo, i - 1) == Pages(lo, hi);
  }

  /** The window computation: clamp around the current page, then pull it in at either end. */
  method WindowOf(totalPages: int, currentPage: int) returns (start: int, end: int)
    requires totalPages > MaxButtons
    ensures (start, end) == Window(totalPages, currentPage)
  {
    start := Max(1, currentPage - 2);
    end := Min(totalPages, currentPage + 2);
    if currentPage < 4 {
      end := 5;
    }
    if currentPage > totalPages - 3 {
      start := totalPages - 4;
    }
  }

  /** The entity `escapeHTML` writes for one character; other characters are kept. */
  function EscapeHtmlChar(c: char): string
  {
    match c
    case '&' => "&amp;"
    case '<' => "&lt;"
    case '>' => "&gt;"
    case '"' => "&quot;"
    case '\'' => "&#39;"
    case _ => [c]
  }

  /** `str.replace(/[&<>"']/g, ...)`: the output holds none of `<`, `>`, `"` and `'`. */
  function EscapeHtml(s: string): (r: string)
    ensures |r| >= |s|
    ensures forall i :: 0 <= i < |r| ==> r[i] != '<' && r[i] != '>' && r[i] != '"' && r[i] != '\''
  {
    if s == [] then [] else EscapeHtmlChar(s[0]) + EscapeHtml(s[1..])
  }

  /** `escapeHTML(str)`: a value that is not a string is returned unchanged. */
  function EscapeHtmlValue(v: Json): (r: Json)
    ensures !v.JStr? ==> r == v
    ensures v.JStr? ==> r == JStr(EscapeHtml(v.s)) && UnescapeHtml(r.s) == v.s
  {
    if v.JStr? then EscapeHtmlRoundTrip(v.s); JStr(EscapeHtml(v.s)) else v
  }

  /** What a browser reads back: the five entities become their characters again. */
  function UnescapeHtml(s: string): string
  {
    if s == [] then []
    else if "&amp;" <= s then "&" + UnescapeHtml(s[5..])
    else if "&lt;" <= s then "<" + UnescapeHtml(s[4..])
    else if "&gt;" <= s then ">" + UnescapeHtml(s[4..])
    else if "&quot;" <= s then "\"" + UnescapeHtml(s[6..])
    else if "&#39;" <= s then "'" + UnescapeHtml(s[5..])
    else [s[0]] + UnescapeHtml(s[1..])
  }

  lemma UnescapeChar(c: char, rest: string)
    ensures UnescapeHtml(EscapeHtmlChar(c) + rest) == [c] + UnescapeHtml(rest)
  {
    var s := EscapeHtmlChar(c) + rest;
    if c == '&' {
      assert "&amp;" <= s && s[5..] == rest;
    } else if c == '<' {
      assert s[1] == 'l' && "&lt;" <= s && s[4..] == rest;
    } else if c == '>' {
      assert s[1] == 'g' && "&gt;" <= s && s[4..] == rest;
    } else if c == '"' {
      assert s[1] == 'q' && "&quot;" <= s && s[6..] == rest;
    } else if c == '\'' {
      assert s[1] == '#' && "&#39;" <= s && s[5..] == rest;
    } else {
      assert s[0] == c && s[1..] == rest;
    }
  }

  /** Escaping loses nothing: reading the escaped text back gives the original. */
  lemma {:induction false} EscapeHtmlRoundTrip(s: string)
    ensures UnescapeHtml(EscapeHtml(s)) == s
  {
    if s != [] {
      UnescapeChar(s[0], EscapeHtml(s[1..]));
      EscapeHtmlRoundTrip(s[1..]);
      assert s == [s[0]] + s[1..];
    }
  }
}
