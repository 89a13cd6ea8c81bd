/**
 * The admin list's table component (`DataTable.tsx`): page arithmetic over
 * the `data` prop, the visible slice, clamped navigation, the window of page
 * buttons, the pagination footer, which of loading / empty / table is drawn,
 * and how each cell and action button is resolved.
 */
module DataTable {
  import opened Wrappers
  import opened Js

  const MaxVisiblePages := 5
  const DefaultPageSize := 10
  const PageSizeOptions: seq<int> := [5, 10, 20, 50, 100]
  const DefaultEmptyMessage := "No data found."
  const NotAvailable := "N/A"
  const ActionsHeader := "Actions"

  function Max(a: int, b: int): int { if a < b then b else a }
  function Min(a: int, b: int): int { if a < b then a else b }

  // ---------------------------------------------------------------------------
  // Page arithmetic

  /** `Math.ceil(totalItems / pageSize)`: the fewest pages of `pageSize` rows that hold every item. */
  function TotalPages(totalItems: nat, pageSize: nat): (r: nat)
    requires pageSize > 0
    ensures r * pageSize >= totalItems
    ensures r > 0 ==> (r - 1) * pageSize < totalItems
  {
    var q := totalItems / pageSize;
    assert totalItems == q * pageSize + totalItems % pageSize;
    if totalItems % pageSize == 0 then q else q + 1
  }

  /** Index of the first row of a page. */
  function StartIndex(currentPage: int, pageSize: nat): nat
    requires currentPage >= 1
  {
    (currentPage - 1) * pageSize
  }

  /** Index one past the last row a full page would hold (not capped at the data length). */
  function EndIndex(currentPage: int, pageSize: nat): nat
    requires currentPage >= 1
  {
    StartIndex(currentPage, pageSize) + pageSize
  }

  /** Where a page's rows fall relative to the end of the data. */
  lemma PageBounds(totalItems: nat, pageSize: nat, currentPage: int)
    requires pageSize >= 1 && currentPage >= 1
    ensures currentPage <= TotalPages(totalItems, pageSize) ==> StartIndex(currentPage, pageSize) < totalItems
    ensures currentPage < TotalPages(totalItems, pageSize) ==> EndIndex(currentPage, pageSize) <= totalItems
    ensures currentPage == TotalPages(totalItems, pageSize) ==> EndIndex(currentPage, pageSize) >= totalItems
    ensures currentPage > TotalPages(totalItems, pageSize) ==> StartIndex(currentPage, pageSize) >= totalItems
  {
    var t := TotalPages(totalItems, pageSize);
    assert EndIndex(currentPage, pageSize) == currentPage * pageSize;
    if currentPage <= t {
      var gap: nat := t - currentPage;
      assert (t - 1) * pageSize == (currentPage - 1) * pageSize + gap * pageSize;
    }
    if currentPage < t {
      var gap: nat := t - 1 - currentPage;
      assert (t - 1) * pageSize == currentPage * pageSize + gap * pageSize;
    }
    if currentPage > t {
      var gap: nat := currentPage - 1 - t;
      assert (currentPage - 1) * pageSize == t * pageSize + gap * pageSize;
    }
  }

  /** `Array.prototype.slice(from, to)` for non-negative bounds: both are capped at the length. */
  function Slice<T>(s: seq<T>, from: nat, to: nat): seq<T> {
    var lo := Min(from, |s|);
    var hi := Min(to, |s|);
    if lo <= hi then s[lo..hi] else []
  }

  /**
   * The rows the table body shows (`currentData`): every row without
   * pagination, otherwise the current page's rows, which is a full page
   * before the last page, the remainder on the last page, and nothing on a
   * page past the end.
   */
  function CurrentData<T>(data: seq<T>, showPagination: bool, currentPage: int, pageSize: nat): (r: seq<T>)
    requires currentPage >= 1 && pageSize >= 1
    ensures !showPagination ==> r == data
    ensures showPagination ==> |r| <= pageSize
    ensures showPagination ==> forall k :: 0 <= k < |r| ==>
      StartIndex(currentPage, pageSize) + k < |data| && r[k] == data[StartIndex(currentPage, pageSize) + k]
    ensures showPagination && currentPage < TotalPages(|data|, pageSize) ==> |r| == pageSize
    ensures showPagination && currentPage == TotalPages(|data|, pageSize) ==>
      |r| == |data| - StartIndex(currentPage, pageSize)
    ensures showPagination && currentPage > TotalPages(|data|, pageSize) ==> r == []
  {
    if !showPagination then data
    else
      PageBounds(|data|, pageSize, currentPage);
      Slice(data, StartIndex(currentPage, pageSize), EndIndex(currentPage, pageSize))
  }

  /** Row `i` of the data is shown on page `i / pageSize + 1`, at position `i % pageSize`. */
  lemma RowOnItsPage<T>(data: seq<T>, pageSize: nat, i: nat)
    requires pageSize >= 1 && i < |data|
    ensures i / pageSize + 1 <= TotalPages(|data|, pageSize)
    ensures i % pageSize < |CurrentData(data, true, i / pageSize + 1, pageSize)|
    ensures CurrentData(data, true, i / pageSize + 1, pageSize)[i % pageSize] == data[i]
  {
    var page := i / pageSize + 1;
    assert StartIndex(page, pageSize) + i % pageSize == i;
    PageBounds(|data|, pageSize, page);
  }

  function Distance(a: int, b: int): nat { if a <= b then b - a else a - b }

  /** `Math.max(1, Math.min(page, totalPages))`: the page of `[1, max(1, totalPages)]` nearest to the request. */
  function ClampPage(page: int, totalPages: nat): (r: int)
    ensures 1 <= r <= Max(1, totalPages)
    ensures forall q :: 1 <= q <= Max(1, totalPages) ==> Distance(r, page) <= Distance(q, page)
  {
    Max(1, Min(page, totalPages))
  }

  /** Clamping a clamped page changes nothing. */
  lemma ClampIdempotent(page: int, totalPages: nat)
    ensures ClampPage(ClampPage(page, totalPages), totalPages) == ClampPage(page, totalPages)
  {}

  /** Pages already in range are kept. */
  lemma ClampKeepsValidPages(page: int, totalPages: nat)
    requires 1 <= page <= totalPages
    ensures ClampPage(page, totalPages) == page
  {}

  // ---------------------------------------------------------------------------
  // Pagination state

  /** The component's `currentPage` and `pageSize` state. */
  class Pager {
    var currentPage: int
    var pageSize: int

    ghost predicate Valid()
      reads this
    {
      currentPage >= 1 && pageSize >= 1
    }

    /** First render: page 1 at the default page size. */
    constructor (defaultPageSize: int)
      requires defaultPageSize >= 1
      ensures Valid() && currentPage == 1 && pageSize == defaultPageSize
    {
      currentPage := 1;
      pageSize := defaultPageSize;
    }

    /** `goToPage`: jump to a page, clamped to the pages the data has. */
    method GoToPage(page: int, totalItems: nat)
      requires Valid()
      modifies this`currentPage
      ensures Valid()
      ensures currentPage == ClampPage(page, TotalPages(totalItems, pageSize))
    {
      currentPage := Max(1, Min(page, TotalPages(totalItems, pageSize)));
    }

    method GoToFirstPage(totalItems: nat)
      requires Valid()
      modifies this`currentPage
      ensures Valid() && currentPage == 1
    {
      GoToPage(1, totalItems);
    }

    method GoToLastPage(totalItems: nat)
      requires Valid()
      modifies this`currentPage
      ensures Valid() && currentPage == Max(1, TotalPages(totalItems, pageSize))
    {
      GoToPage(TotalPages(totalItems, pageSize), totalItems);
    }

    /** One page back; on page 1 nothing changes. */
    method GoToPreviousPage(totalItems: nat)
      requires Valid()
      modifies this`currentPage
      ensures Valid()
      ensures currentPage == ClampPage(old(currentPage) - 1, TotalPages(totalItems, pageSize))
      ensures old(currentPage) == 1 ==> currentPage == 1
    {
      GoToPage(currentPage - 1, totalItems);
    }

    /** One page forward; on the last page nothing changes. */
    method GoToNextPage(totalItems: nat)
      requires Valid()
      modifies this`currentPage
      ensures Valid()
      ensures currentPage == ClampPage(old(currentPage) + 1, TotalPages(totalItems, pageSize))
      ensures old(currentPage) == TotalPages(totalItems, pageSize) ==> currentPage == old(currentPage)
    {
      GoToPage(currentPage + 1, totalItems);
    }

    /** `handlePageSizeChange`: a new page size always starts again at page 1. */
    method HandlePageSizeChange(newPageSize: int)
      requires Valid() && newPageSize >= 1
      modifies this
      ensures Valid() && pageSize == newPageSize && currentPage == 1
    {
      pageSize := newPageSize;
      currentPage := 1;
    }

    /**
     * Corrected behaviour for a change of the `data` prop: back to page 1, as
     * the comment above `handlePageSizeChange` says the component does. The
     * component as written has no such handler; see README, Findings.
     */
    method HandleDataChange()
      requires Valid()
      modifies this`currentPage
      ensures Valid() && currentPage == 1
    {
      currentPage := 1;
    }

    /**
     * `getPageNumbers`: the page buttons. All pages when there are at most
     * five; otherwise a run starting two pages before the current one (but
     * not before page 1) and ending four pages later or at the last page,
     * whichever is first, so near the end fewer than five are shown.
     */
    method PageNumbers(totalItems: nat) returns (pages: seq<int>)
      requires Valid()
      ensures |pages| <= MaxVisiblePages
      ensures forall i :: 0 <= i < |pages| ==> 1 <= pages[i] <= TotalPages(totalItems, pageSize)
      ensures forall i :: 0 < i < |pages| ==> pages[i] == pages[i - 1] + 1
      ensures TotalPages(totalItems, pageSize) <= MaxVisiblePages ==>
        |pages| == TotalPages(totalItems, pageSize) && forall i :: 0 <= i < |pages| ==> pages[i] == i + 1
      ensures TotalPages(totalItems, pageSize) > MaxVisiblePages && 1 <= currentPage <= TotalPages(totalItems, pageSize) ==>
        |pages| > 0 && pages[0] == Max(1, currentPage - 2) &&
        |pages| == Min(MaxVisiblePages, TotalPages(totalItems, pageSize) - pages[0] + 1)
      ensures 1 <= currentPage <= TotalPages(totalItems, pageSize) ==> currentPage in pages
    {
      var totalPages := TotalPages(totalItems, pageSize);
      pages := [];
      if totalPages <= MaxVisiblePages {
        var i := 1;
        while i <= totalPages
          invariant 1 <= i <= totalPages + 1
          invariant |pages| == i - 1
          invariant forall k :: 0 <= k < |pages| ==> pages[k] == k + 1
        {
          pages := pages + [i];
          i := i + 1;
        }
        assert 1 <= currentPage <= totalPages ==> pages[currentPage - 1] == currentPage;
      } else {
        var startPage := Max(1, currentPage - MaxVisiblePages / 2);
        var endPage := Min(totalPages, startPage + MaxVisiblePages - 1);
        var i := startPage;
        while i <= endPage
          invariant startPage <= i <= Max(startPage, endPage + 1)
          invariant |pages| == i - startPage
          invariant forall k :: 0 <= k < |pages| ==> pages[k] == startPage + k
        {
          pages := pages + [i];
          i := i + 1;
        }
        assert 1 <= currentPage <= totalPages ==> pages[currentPage - startPage] == currentPage;
      }
    }
  }

  /** A page of the data is left stale by a shrink: past the end, the body shows no rows. */
  lemma StalePageShowsNoRows<T>(data: seq<T>, currentPage: int, pageSize: nat)
    requires pageSize >= 1 && currentPage > TotalPages(|data|, pageSize)
    ensures CurrentData(data, true, currentPage, pageSize) == []
  {}

  /** After the corrected reset, a non-empty data set always shows rows. */
  lemma FirstPageShowsRows<T>(data: seq<T>, pageSize: nat)
    requires pageSize >= 1 && |data| > 0
    ensures |CurrentData(data, true, 1, pageSize)| == Min(pageSize, |data|)
  {
    PageBounds(|data|, pageSize, 1);
  }

  // ---------------------------------------------------------------------------
  // Pagination footer

  /** What the footer shows: the "Showing a to b of n" range and which arrow buttons are disabled. */
  datatype Footer = Footer(showingStart: nat, showingEnd: nat, totalItems: nat, backDisabled: bool, forwardDisabled: bool)

  /**
   * `PaginationControls`: nothing without pagination or with at most one
   * page. The range ends at the page's last slot or at the last row,
   * whichever comes first, even on a page past the end.
   */
  function PaginationControls(showPagination: bool, currentPage: int, pageSize: nat, totalItems: nat): (r: Option<Footer>)
    requires currentPage >= 1 && pageSize >= 1
    ensures r.Some? <==> showPagination && TotalPages(totalItems, pageSize) >= 2
    ensures r.Some? ==> r.value.totalItems == totalItems && r.value.showingEnd <= totalItems
    ensures r.Some? ==> r.value.showingEnd == Min(currentPage * pageSize, totalItems)
    ensures r.Some? ==> r.value.showingStart == (currentPage - 1) * pageSize + 1
    ensures r.Some? ==> (r.value.backDisabled <==> currentPage == 1)
    ensures r.Some? ==> (r.value.forwardDisabled <==> currentPage == TotalPages(totalItems, pageSize))
  {
    var totalPages := TotalPages(totalItems, pageSize);
    if !showPagination || totalPages <= 1 then None
    else Some(Footer(
      StartIndex(currentPage, pageSize) + 1,
      Min(EndIndex(currentPage, pageSize), totalItems),
      totalItems,
      currentPage == 1,
      currentPage == totalPages))
  }

  /**
   * The footer is shown exactly when pagination is on and there are at least
   * two pages, and on a page in range its "Showing" range counts exactly the
   * rows in the body.
   */
  lemma FooterMatchesBody<T>(data: seq<T>, showPagination: bool, currentPage: int, pageSize: nat)
    requires currentPage >= 1 && pageSize >= 1
    ensures PaginationControls(showPagination, currentPage, pageSize, |data|).Some? <==>
      showPagination && TotalPages(|data|, pageSize) > 1
    ensures showPagination && currentPage <= TotalPages(|data|, pageSize) &&
            PaginationControls(showPagination, currentPage, pageSize, |data|).Some? ==>
      var f := PaginationControls(showPagination, currentPage, pageSize, |data|).value;
      f.showingEnd - f.showingStart + 1 == |CurrentData(data, true, currentPage, pageSize)|
  {
    PageBounds(|data|, pageSize, currentPage);
  }

  // ---------------------------------------------------------------------------
  // What is drawn

  /** The three mutually exclusive bodies; the error banner is drawn above any of them. */
  datatype Body = LoadingIndicator | EmptyState(message: string) | Table

  datatype View = View(errorBanner: Option<string>, body: Body)

  /** Loading wins over empty, empty wins over the table; the banner depends only on `error`. */
  function Render(loading: bool, error: Option<string>, dataLength: nat, emptyMessage: string): (v: View)
    ensures v.body == LoadingIndicator <==> loading
    ensures v.body == EmptyState(emptyMessage) <==> !loading && dataLength == 0
    ensures v.body == Table <==> !loading && dataLength > 0
    ensures v.errorBanner.Some? <==> error.Some? && error.value != ""
    ensures v.errorBanner.Some? ==> v.errorBanner == error
  {
    var banner := if error.Some? && error.value != "" then error else None;
    if loading then View(banner, LoadingIndicator)
    else if dataLength == 0 then View(banner, EmptyState(emptyMessage))
    else View(banner, Table)
  }

  // ---------------------------------------------------------------------------
  // Cells and actions

  /** A row, seen through the field names a column may name. */
  type Row = map<string, JsValue>

  /** `item[key]`: a missing field is `undefined`. */
  function FieldValue(row: Row, key: string): JsValue {
    if key in row then row[key] else Undefined
  }

  /** A column's accessor: a field name, or a function of the row. */
  datatype Accessor = Key(name: string) | Compute(f: Row -> JsValue)

  datatype Column = Column(header: string, accessor: Accessor, format: Option<JsValue -> JsValue>)

  /**
   * A cell's content: a function accessor is called on the row; otherwise
   * the formatter, if any, is applied to the field; otherwise the field is
   * shown, with any falsy value (including `0` and `''`) shown as `'N/A'`.
   */
  function ResolveCell(column: Column, row: Row): (r: JsValue)
    ensures column.accessor.Compute? ==> r == column.accessor.f(row)
    ensures column.accessor.Key? && column.format.Some? ==>
      r == column.format.value(FieldValue(row, column.accessor.name))
    ensures column.accessor.Key? && column.format.None? ==>
      Truthy(r) && (Truthy(FieldValue(row, column.accessor.name)) ==> r == FieldValue(row, column.accessor.name))
      && (!Truthy(FieldValue(row, column.accessor.name)) ==> r == Str(NotAvailable))
  {
    match column.accessor
    case Compute(f) => f(row)
    case Key(k) =>
      if column.format.Some? then column.format.value(FieldValue(row, k))
      else Or(FieldValue(row, k), Str(NotAvailable))
  }

  /** A plain field column never shows a falsy value, and shows the field itself whenever that is truthy. */
  lemma PlainCellIsTruthy(header: string, key: string, row: Row)
    ensures Truthy(ResolveCell(Column(header, Key(key), None), row))
    ensures Truthy(FieldValue(row, key)) ==> ResolveCell(Column(header, Key(key), None), row) == FieldValue(row, key)
  {}

  /** `0`, `''`, `null` and a missing field all show as `'N/A'` in a plain field column. */
  lemma FalsyFieldsShowNotAvailable(header: string, key: string, row: Row)
    requires !Truthy(FieldValue(row, key))
    ensures ResolveCell(Column(header, Key(key), None), row) == Str(NotAvailable)
  {}

  /** A formatter's result is shown as it is, even when falsy; a function accessor ignores the formatter. */
  lemma FormatterAndFunctionBypassFallback(header: string, key: string, fmt: JsValue -> JsValue, f: Row -> JsValue, row: Row)
    ensures ResolveCell(Column(header, Key(key), Some(fmt)), row) == fmt(FieldValue(row, key))
    ensures ResolveCell(Column(header, Compute(f), Some(fmt)), row) == f(row)
  {}

  /** A row action: a link when `href` is given, otherwise a button calling the handler `H`, if any. */
  datatype Action<H> = Action(href: Option<Row -> string>, onClick: Option<H>)

  datatype Activation<H> = Navigate(url: string) | Invoke(handler: H, row: Row) | NoEffect

  /** What activating an action on a row does; `href` takes precedence over `onClick`. */
  function Activate<H>(action: Action<H>, row: Row): (e: Activation<H>)
    ensures e.Navigate? <==> action.href.Some?
    ensures e.Invoke? <==> action.href.None? && action.onClick.Some?
    ensures e.Navigate? ==> e.url == action.href.value(row)
    ensures e.Invoke? ==> e.handler == action.onClick.value && e.row == row
  {
    if action.href.Some? then Navigate(action.href.value(row))
    else if action.onClick.Some? then Invoke(action.onClick.value, row)
    else NoEffect
  }

  /** A cell of a body row: a column value, or the actions cell with one button per action. */
  datatype Cell<H> = ValueCell(value: JsValue) | ActionsCell(buttons: seq<Activation<H>>)

  function ResolveCells<H>(columns: seq<Column>, row: Row): (r: seq<Cell<H>>)
    ensures |r| == |columns|
    ensures forall i :: 0 <= i < |columns| ==> r[i] == ValueCell(ResolveCell(columns[i], row))
  {
    if columns == [] then [] else [ValueCell(ResolveCell(columns[0], row))] + ResolveCells(columns[1..], row)
  }

  function ActivateAll<H>(actions: seq<Action<H>>, row: Row): (r: seq<Activation<H>>)
    ensures |r| == |actions|
    ensures forall i :: 0 <= i < |actions| ==> r[i] == Activate(actions[i], row)
  {
    if actions == [] then [] else [Activate(actions[0], row)] + ActivateAll(actions[1..], row)
  }

  /** The header row: one label per column, plus "Actions" exactly when there are actions. */
  function HeaderRow<H>(columns: seq<Column>, actions: seq<Action<H>>): (r: seq<string>)
    ensures |r| == |columns| + (if |actions| > 0 then 1 else 0)
    ensures forall i :: 0 <= i < |columns| ==> r[i] == columns[i].header
    ensures |actions| > 0 ==> r[|columns|] == ActionsHeader
  {
    if columns == [] then (if |actions| > 0 then [ActionsHeader] else [])
    else [columns[0].header] + HeaderRow(columns[1..], actions)
  }

  /** A body row: the column cells, then the actions cell exactly when there are actions. */
  function BodyRow<H>(columns: seq<Column>, actions: seq<Action<H>>, row: Row): (r: seq<Cell<H>>)
    ensures |r| == |HeaderRow(columns, actions)|
    ensures forall i :: 0 <= i < |columns| ==> r[i] == ValueCell(ResolveCell(columns[i], row))
    ensures |actions| > 0 ==> r[|columns|] == ActionsCell(ActivateAll(actions, row))
  {
    ResolveCells(columns, row) + (if |actions| > 0 then [ActionsCell(ActivateAll(actions, row))] else [])
  }

  // ---------------------------------------------------------------------------
  // Scenarios

  /** 23 rows at 10 per page: pages of 10, 10 and 3 rows, and a request for page 5 lands on page 3. */
  lemma TwentyThreeRows<T>(data: seq<T>)
    requires |data| == 23
    ensures TotalPages(|data|, 10) == 3
    ensures |CurrentData(data, true, 1, 10)| == 10
    ensures |CurrentData(data, true, 2, 10)| == 10
    ensures |CurrentData(data, true, 3, 10)| == 3
    ensures ClampPage(5, TotalPages(|data|, 10)) == 3
  {}

  /**
   * The component as written keeps the page when `data` shrinks: on page 2
   * of 11 rows at 10 per page, deleting one row leaves the table drawn with
   * no rows and no footer to navigate back.
   */
  lemma ShrinkStrandsPage<T>(data: seq<T>)
    requires |data| == 10
    ensures TotalPages(|data|, 10) == 1
    ensures Render(false, None, |data|, DefaultEmptyMessage).body == Table
    ensures CurrentData(data, true, 2, 10) == []
    ensures PaginationControls(true, 2, 10, |data|) == None
  {}

  /**
   * The same stale page when two pages remain: on page 3 of 25 rows, deleting
   * down to 15 rows leaves an empty body under a footer reading "Showing 21
   * to 15 of 15", with only the back arrows enabled.
   */
  lemma ShrinkShowsBackwardsFooter<T>(data: seq<T>)
    requires |data| == 15
    ensures TotalPages(|data|, 10) == 2
    ensures CurrentData(data, true, 3, 10) == []
    ensures PaginationControls(true, 3, 10, |data|) == Some(Footer(21, 15, 15, false, false))
  {}
}
