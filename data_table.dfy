/**
 * The shared table component (components/ui/data-table.jsx): the global search
 * predicate, the page arithmetic shown in the footer, the search and
 * column-visibility state the toolbar changes, and the empty-table message.
 * Sorting, row slicing and expansion belong to the table library and are
 * inputs here (the page index, the page's row count, the column list).
 */
module DataTable {
  import opened Wrappers
  import opened Strings
  import opened Json

  // ------------------------------------------------------------ global search

  /**
   * `globalFilterFn`: an empty query keeps every row; otherwise the row's search
   * value (`""` when null or undefined), lower-cased, must contain the query,
   * lower-cased.
   */
  function GlobalFilter(searchValue: Json, filterValue: Json): (keep: bool)
    ensures !Truthy(filterValue) ==> keep
  {
    if !Truthy(filterValue) then true
    else
      var haystack := Lower(ToStr(Coalesce(searchValue, Str(""))));
      Contains(haystack, Lower(ToStr(filterValue)))
  }

  /** A row whose search value contains the query as typed is kept. */
  lemma SubstringIsKept(haystack: string, query: string)
    requires Contains(haystack, query)
    ensures GlobalFilter(Str(haystack), Str(query))
  {
    LowerContains(haystack, query);
  }

  /** The query's case does not matter, and a row without a search value matches no non-empty query. */
  lemma SearchIgnoresCase(searchValue: Json, query: string)
    requires query != []
    ensures GlobalFilter(searchValue, Str(Lower(query))) == GlobalFilter(searchValue, Str(query))
    ensures !GlobalFilter(Null, Str(query)) && !GlobalFilter(Undefined, Str(query))
  {
    assert Lower(Lower(query)) == Lower(query);
    assert |Lower(query)| > 0;
  }

  // ------------------------------------------------------------ pages

  /** The page-size choices offered, and the size assumed before the table reports one. */
  const PageSizes: seq<int> := [10, 25, 50]
  const DefaultPageSize := 10

  /** `pagination?.pageSize ?? 10`. */
  function PageSizeOf(reported: Option<int>): (r: int)
    ensures reported.None? ==> r == DefaultPageSize
  {
    reported.GetOr(DefaultPageSize)
  }

  /** Each choice is offered as its text and read back with `Number`, giving the same size. */
  lemma PageSizeChoicesRoundTrip(k: nat)
    requires k < |PageSizes|
    ensures TextToNumber(IntToString(PageSizes[k])) == Some(PageSizes[k])
    ensures PageSizes[k] in {10, 25, 50}
  {
    IntToStringRoundTrip(PageSizes[k]);
  }

  /** `Math.max(pageCount, 1)`. */
  function TotalPages(pageCount: int): (r: int)
    ensures r >= 1
  {
    if pageCount > 1 then pageCount else 1
  }

  /** `Math.min(pageIndex + 1, totalPages)`. */
  function CurrentPage(pageIndex: nat, totalPages: int): int
  {
    if pageIndex + 1 < totalPages then pageIndex + 1 else totalPages
  }

  /** The page shown is always a real page number. */
  lemma CurrentPageInRange(pageIndex: nat, pageCount: int)
    ensures 1 <= CurrentPage(pageIndex, TotalPages(pageCount)) <= TotalPages(pageCount)
  {
  }

  /** The 1-based first and last row numbers in "Showing a - b of n rows"; both 0 for an empty table. */
  function PageWindow(totalRows: nat, pageIndex: nat, pageSize: nat, pageRows: nat): (w: (nat, nat))
    ensures totalRows == 0 ==> w == (0, 0)
  {
    if totalRows == 0 then (0, 0)
    else
      var start := pageIndex * pageSize + 1;
      (start, start + if pageRows >= 1 then pageRows - 1 else 0)
  }

  /**
   * When the page holds the rows the slice gives it (a full page, or what is
   * left on the last one), the window numbers exactly those rows, within the table.
   */
  lemma PageWindowCoversPage(totalRows: nat, pageIndex: nat, pageSize: nat)
    requires pageSize >= 1 && pageIndex * pageSize < totalRows
    ensures var pageRows := if totalRows - pageIndex * pageSize < pageSize then totalRows - pageIndex * pageSize else pageSize;
      var (start, end) := PageWindow(totalRows, pageIndex, pageSize, pageRows);
      1 <= start <= end <= totalRows && end - start + 1 == pageRows
  {
  }

  /** The footer's row summary. */
  function FooterText(totalRows: nat, pageIndex: nat, pageSize: nat, pageRows: nat): (r: string)
    ensures totalRows == 0 <==> r == "No rows to display."
  {
    if totalRows == 0 then "No rows to display."
    else
      var (start, end) := PageWindow(totalRows, pageIndex, pageSize, pageRows);
      "Showing " + NatToString(start) + " - " + NatToString(end) + " of " + NatToString(totalRows) + " rows"
  }

  // ------------------------------------------------------------ body

  datatype Body = RowsShown(count: nat) | EmptyRow(message: string, colSpan: nat)

  const DefaultEmptyMessage := "No results."

  /** The body: the page's rows, or one cell spanning every column with the empty message. */
  function TableBody(pageRows: nat, emptyMessage: Option<string>, columnCount: nat): (b: Body)
    ensures b.EmptyRow? <==> pageRows == 0
    ensures b.EmptyRow? ==> b.message == (if emptyMessage.Some? then emptyMessage.value else DefaultEmptyMessage)
    ensures b.RowsShown? ==> b.count == pageRows
  {
    if pageRows > 0 then RowsShown(pageRows) else EmptyRow(emptyMessage.GetOr(DefaultEmptyMessage), columnCount)
  }

  // ------------------------------------------------------------ columns

  datatype Column = Column(id: string, canHide: bool, visible: bool)

  predicate AnyHideable(cols: seq<Column>)
  {
    exists i :: 0 <= i < |cols| && cols[i].canHide
  }

  /** `hideableColumns.every(column => column.getIsVisible())`. */
  predicate AllHideableVisible(cols: seq<Column>)
  {
    forall i :: 0 <= i < |cols| && cols[i].canHide ==> cols[i].visible
  }

  /** One column after `toggleVisibility(!shouldHide)` when it can hide. */
  function Toggled(c: Column, shouldHide: bool): Column
  {
    if c.canHide then c.(visible := !shouldHide) else c
  }

  /** `toggleAllColumns`: nothing to do without hideable columns; else hide all when all are shown, show all otherwise. */
  function ToggledAll(cols: seq<Column>): (r: seq<Column>)
    ensures |r| == |cols|
  {
    if !AnyHideable(cols) then cols
    else seq(|cols|, i requires 0 <= i < |cols| => Toggled(cols[i], AllHideableVisible(cols)))
  }

  /** What toggle-all does, column by column. */
  lemma ToggleAllEffect(cols: seq<Column>)
    ensures !AnyHideable(cols) ==> ToggledAll(cols) == cols
    ensures forall i :: 0 <= i < |cols| ==>
      ToggledAll(cols)[i].id == cols[i].id && ToggledAll(cols)[i].canHide == cols[i].canHide
    ensures forall i :: 0 <= i < |cols| && !cols[i].canHide ==> ToggledAll(cols)[i] == cols[i]
    ensures AnyHideable(cols) && AllHideableVisible(cols) ==>
      forall i :: 0 <= i < |cols| && cols[i].canHide ==> !ToggledAll(cols)[i].visible
    ensures AnyHideable(cols) && !AllHideableVisible(cols) ==>
      forall i :: 0 <= i < |cols| && cols[i].canHide ==> ToggledAll(cols)[i].visible
  {
  }

  /** Starting from every column shown, toggling twice shows them all again. */
  lemma {:induction false} ToggleAllTwice(cols: seq<Column>)
    requires AllHideableVisible(cols)
    ensures ToggledAll(ToggledAll(cols)) == cols
  {
    var once := ToggledAll(cols);
    if AnyHideable(cols) {
      var i :| 0 <= i < |cols| && cols[i].canHide;
      assert once[i].canHide && !once[i].visible;
      assert !AllHideableVisible(once);
      assert AnyHideable(once);
      var twice := ToggledAll(once);
      forall j | 0 <= j < |cols| ensures twice[j] == cols[j] {
        assert twice[j] == Toggled(once[j], false);
      }
    }
  }

  // ------------------------------------------------------------ toolbar state

  /** The table's own state: the search text, the page and the column visibility. */
  class TableState {
    /** Whether rows are searched through `getSearchValue` (the global filter) or a column's filter. */
    const usesSearchValue: bool
    const hasSearchColumn: bool
    const hasClearHandler: bool

    var globalSearch: string
    var columnFilter: string
    var pageIndex: nat
    var columns: seq<Column>
    /** How many times `onClearFilters` has been called. */
    var clearRequests: nat

    constructor(usesSearchValue: bool, hasSearchColumn: bool, hasClearHandler: bool, columns: seq<Column>)
      ensures this.usesSearchValue == usesSearchValue && this.hasSearchColumn == hasSearchColumn
      ensures this.hasClearHandler == hasClearHandler && this.columns == columns
      ensures globalSearch == "" && columnFilter == "" && pageIndex == 0 && clearRequests == 0
    {
      this.usesSearchValue := usesSearchValue;
      this.hasSearchColumn := hasSearchColumn;
      this.hasClearHandler := hasClearHandler;
      this.columns := columns;
      globalSearch := "";
      columnFilter := "";
      pageIndex := 0;
      clearRequests := 0;
    }

    /** The text in the search box. */
    function SearchValue(): string
      reads this
    {
      if usesSearchValue then globalSearch else columnFilter
    }

    /** `hasSearchValue` for text: something other than blanks has been typed. */
    predicate HasSearchValue()
      reads this
    {
      Trim(SearchValue()) != []
    }

    /** `handleSearchChange`: the value goes to whichever filter is in use, and paging restarts. */
    method SearchChange(value: string)
      modifies this
      ensures usesSearchValue ==> globalSearch == value && columnFilter == old(columnFilter)
      ensures !usesSearchValue ==> globalSearch == old(globalSearch)
      ensures !usesSearchValue ==> columnFilter == (if hasSearchColumn then value else old(columnFilter))
      ensures pageIndex == 0
      ensures columns == old(columns) && clearRequests == old(clearRequests)
    {
      if usesSearchValue {
        globalSearch := value;
      } else if hasSearchColumn {
        columnFilter := value;
      }
      pageIndex := 0;
    }

    /** `handleSearchClear`: empties the search, restarts paging and calls `onClearFilters` when given. */
    method SearchClear()
      modifies this
      ensures usesSearchValue || hasSearchColumn ==> !HasSearchValue()
      ensures usesSearchValue ==> globalSearch == "" && columnFilter == old(columnFilter)
      ensures pageIndex == 0 && columns == old(columns)
      ensures clearRequests == old(clearRequests) + (if hasClearHandler then 1 else 0)
    {
      SearchChange("");
      if hasClearHandler {
        clearRequests := clearRequests + 1;
      }
    }

    /** `toggleAllColumns`: the `forEach` over the hideable columns. */
    method ToggleAllColumns()
      modifies this
      ensures columns == ToggledAll(old(columns))
      ensures globalSearch == old(globalSearch) && columnFilter == old(columnFilter)
      ensures pageIndex == old(pageIndex) && clearRequests == old(clearRequests)
    {
      if !AnyHideable(columns) {
        return;
      }
      var shouldHide := AllHideableVisible(columns);
      ghost var before := columns;
      var i := 0;
      while i < |columns|
        invariant 0 <= i <= |columns| == |before|
        invariant forall j :: 0 <= j < i ==> columns[j] == Toggled(before[j], shouldHide)
        invariant forall j :: i <= j < |columns| ==> columns[j] == before[j]
        invariant globalSearch == old(globalSearch) && columnFilter == old(columnFilter)
        invariant pageIndex == old(pageIndex) && clearRequests == old(clearRequests)
      {
        if columns[i].canHide {
          columns := columns[i := columns[i].(visible := !shouldHide)];
        }
        i := i + 1;
      }
    }
  }
}
