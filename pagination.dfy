/** The pagination footer of the users list: the sliding window of page
    numbers, the prev / page / next controls rendered from it, and the
    "Showing X to Y of Z" label. */
module Pagination {

  /** Most page numbers shown at once (`maxVisiblePages`). */
  const MaxVisiblePages: int := 5

  /** Users requested per page (`limit`). */
  const PageSize: int := 10

  function Min(a: int, b: int): int { if a <= b then a else b }
  function Max(a: int, b: int): int { if a >= b then a else b }

  /** The page numbers `start` to `end`, both included; empty when `end < start`. */
  datatype Window = Window(start: int, end: int) {
    function Width(): nat { if start <= end then end - start + 1 else 0 }
    predicate Contains(page: int) { start <= page <= end }
  }

  /** The window the users page shows for `currentPage` out of `totalPages`:
      first centred on the current page and clamped below at 1 and above at
      `totalPages`, then slid back towards 1 when clamping left it short. */
  function PageWindow(currentPage: int, totalPages: int): (w: Window)
    ensures 1 <= w.start && w.end <= totalPages
    ensures w.Width() == if totalPages >= 1 then Min(MaxVisiblePages, totalPages) else 0
    ensures 1 <= currentPage <= totalPages ==> w.Contains(currentPage)
    ensures 3 <= currentPage <= totalPages - 2 ==> w == Window(currentPage - 2, currentPage + 2)
    ensures totalPages <= MaxVisiblePages ==> w.end == totalPages
    ensures totalPages >= 1 && currentPage <= 3 ==> w.start == 1
    ensures totalPages >= 1 && currentPage >= totalPages - 2 ==> w.end == totalPages
  {
    var first := Max(1, currentPage - MaxVisiblePages / 2);
    var end := Min(totalPages, first + MaxVisiblePages - 1);
    var start := if end - first + 1 < MaxVisiblePages then Max(1, end - MaxVisiblePages + 1) else first;
    Window(start, end)
  }

  /** Button styles: the current page is drawn "default", every other control "outline". */
  datatype Variant = Default | Outline

  datatype Kind = PrevControl | PageControl(number: int) | NextControl

  /** One rendered pagination button. */
  datatype Control = Control(kind: Kind, variant: Variant, disabled: bool)

  function PrevButton(hasPrevPage: bool): Control {
    Control(PrevControl, Outline, !hasPrevPage)
  }

  function PageButton(page: int, currentPage: int): Control {
    Control(PageControl(page), if page == currentPage then Default else Outline, false)
  }

  function NextButton(hasNextPage: bool): Control {
    Control(NextControl, Outline, !hasNextPage)
  }

  /** The page that pressing `c` selects, where `currentPage` is the page the
      footer was rendered for (the buttons' click handlers). */
  function Target(c: Control, currentPage: int): (page: int)
    ensures c.kind.PrevControl? ==> page == currentPage - 1
    ensures c.kind.NextControl? ==> page == currentPage + 1
    ensures c.kind.PageControl? ==> page == c.kind.number
  {
    match c.kind
    case PrevControl => currentPage - 1
    case PageControl(page) => page
    case NextControl => currentPage + 1
  }

  /** One page button per page of `w`, in order. */
  function PageButtons(w: Window, currentPage: int): seq<Control> {
    seq(w.Width(), k requires 0 <= k < w.Width() => PageButton(w.start + k, currentPage))
  }

  /** The footer's controls: prev, the window's pages in ascending order, next. */
  function Controls(currentPage: int, totalPages: int, hasPrevPage: bool, hasNextPage: bool): (c: seq<Control>)
    ensures |c| == PageWindow(currentPage, totalPages).Width() + 2
    ensures c[0] == PrevButton(hasPrevPage)
    ensures c[|c| - 1] == NextButton(hasNextPage)
    ensures forall k :: 1 <= k < |c| - 1 ==>
              c[k] == PageButton(PageWindow(currentPage, totalPages).start + k - 1, currentPage)
  {
    [PrevButton(hasPrevPage)] + PageButtons(PageWindow(currentPage, totalPages), currentPage) + [NextButton(hasNextPage)]
  }

  /** `renderPaginationButtons`: the window start is a `let` that may be
      re-anchored, and the page buttons are pushed one by one. */
  method RenderPaginationButtons(currentPage: int, totalPages: int, hasPrevPage: bool, hasNextPage: bool)
    returns (buttons: seq<Control>)
    ensures buttons == Controls(currentPage, totalPages, hasPrevPage, hasNextPage)
  {
    buttons := [];
    var startPage := Max(1, currentPage - MaxVisiblePages / 2);
    var endPage := Min(totalPages, startPage + MaxVisiblePages - 1);
    if endPage - startPage + 1 < MaxVisiblePages {
      startPage := Max(1, endPage - MaxVisiblePages + 1);
    }
    ghost var w := Window(startPage, endPage);
    assert w == PageWindow(currentPage, totalPages);

    buttons := buttons + [PrevButton(hasPrevPage)];
    var i := startPage;
    while i <= endPage
      invariant startPage <= i <= Max(startPage, endPage + 1)
      invariant buttons == [PrevButton(hasPrevPage)] + PageButtons(Window(startPage, i - 1), currentPage)
    {
      buttons := buttons + [PageButton(i, currentPage)];
      i := i + 1;
    }
    assert Window(startPage, i - 1).Width() == w.Width();
    buttons := buttons + [NextButton(hasNextPage)];
  }

  /** Exactly the button of the current page is drawn "default", and it is
      there whenever the current page is a real page. */
  lemma HighlightsCurrentPage(currentPage: int, totalPages: int, hasPrevPage: bool, hasNextPage: bool)
    ensures var c := Controls(currentPage, totalPages, hasPrevPage, hasNextPage);
            forall k :: 0 <= k < |c| ==> (c[k].variant == Default <==> c[k].kind == PageControl(currentPage))
    ensures var c := Controls(currentPage, totalPages, hasPrevPage, hasNextPage);
            forall j, k :: 0 <= j < |c| && 0 <= k < |c| && c[j].variant == Default && c[k].variant == Default ==> j == k
    ensures var c := Controls(currentPage, totalPages, hasPrevPage, hasNextPage);
            1 <= currentPage <= totalPages ==> exists k :: 0 <= k < |c| && c[k] == PageButton(currentPage, currentPage)
  {
    var c := Controls(currentPage, totalPages, hasPrevPage, hasNextPage);
    var w := PageWindow(currentPage, totalPages);
    forall j, k | 0 <= j < |c| && 0 <= k < |c| && c[j].variant == Default && c[k].variant == Default
      ensures j == k
    {
      assert 1 <= j < |c| - 1 && 1 <= k < |c| - 1;
      assert c[j] == PageButton(w.start + j - 1, currentPage);
      assert c[k] == PageButton(w.start + k - 1, currentPage);
    }
    if 1 <= currentPage <= totalPages {
      var k := currentPage - w.start + 1;
      assert c[k] == PageButton(currentPage, currentPage);
    }
  }

  /** When the pagination envelope agrees with the current page (a previous
      page exists exactly when the current one is past the first, a next
      page exactly when it is before the last), no enabled control leads to
      a page outside `[1, totalPages]`. */
  lemma EnabledControlsStayInRange(currentPage: int, totalPages: int, hasPrevPage: bool, hasNextPage: bool)
    requires 1 <= currentPage <= totalPages
    requires hasPrevPage <==> currentPage > 1
    requires hasNextPage <==> currentPage < totalPages
    ensures var c := Controls(currentPage, totalPages, hasPrevPage, hasNextPage);
            forall k :: 0 <= k < |c| && !c[k].disabled ==> 1 <= Target(c[k], currentPage) <= totalPages
  {
  }

  /** The previous control trusts the envelope alone: an envelope that claims
      a previous page while the first page is shown enables a control that
      selects page 0. */
  lemma InconsistentFlagsLeavePage()
    ensures var c := Controls(1, 5, true, false);
            !c[0].disabled && Target(c[0], 1) == 0
  {
  }

  /** The "Showing first to last of total users" label. */
  datatype RangeLabel = RangeLabel(first: int, last: int, total: int)

  /** The label for `currentPage` when the list holds `totalUsers` users. */
  function ShowingRange(currentPage: int, totalUsers: int): (r: RangeLabel)
    ensures r.total == totalUsers
    ensures r.first - 1 == (currentPage - 1) * PageSize
    ensures r.last <= totalUsers && r.last - r.first + 1 <= PageSize
    ensures r.last == totalUsers || r.last - r.first + 1 == PageSize
    ensures 1 <= r.first <= r.last <==> 1 <= currentPage && (currentPage - 1) * PageSize < totalUsers
  {
    RangeLabel((currentPage - 1) * PageSize + 1, Min(currentPage * PageSize, totalUsers), totalUsers)
  }
}
