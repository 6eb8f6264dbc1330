/** Client-side pagination shared by the booking lists: the visible rows are
    `items.slice(page * rowsPerPage, page * rowsPerPage + rowsPerPage)`, and the
    `TablePagination` handlers set the page or the page size. */
module Pagination {

  function Min(a: int, b: int): int
  {
    if a <= b then a else b
  }

  /** `items.slice(page * rows, page * rows + rows)`, with JavaScript's clamping of both
      bounds to the length of the list. */
  function PageSlice<T>(items: seq<T>, page: nat, rows: nat): (r: seq<T>)
    ensures |r| <= rows
    ensures |r| == if page * rows >= |items| then 0 else Min(rows, |items| - page * rows)
    ensures forall k :: 0 <= k < |r| ==> page * rows + k < |items| && r[k] == items[page * rows + k]
  {
    var lo := Min(page * rows, |items|);
    var hi := Min(page * rows + rows, |items|);
    items[lo..hi]
  }

  /** The first `count` pages, one after the other. */
  function Pages<T>(items: seq<T>, rows: nat, count: nat): seq<T>
  {
    if count == 0 then [] else Pages(items, rows, count - 1) + PageSlice(items, count - 1, rows)
  }

  /** Paging neither loses, repeats nor reorders rows: the first `count` pages together are
      exactly the first `count * rows` items. */
  lemma {:induction false} PagesCover<T>(items: seq<T>, rows: nat, count: nat)
    ensures Pages(items, rows, count) == items[..Min(count * rows, |items|)]
  {
    if count > 0 {
      PagesCover(items, rows, count - 1);
      var lo := Min((count - 1) * rows, |items|);
      assert (count - 1) * rows + rows == count * rows;
      assert items[..lo] + items[lo..Min(count * rows, |items|)] == items[..Min(count * rows, |items|)];
    }
  }

  /** Every item is shown on page `i / rows`, at row `i % rows`. */
  lemma ItemOnItsPage<T>(items: seq<T>, rows: nat, i: nat)
    requires rows > 0 && i < |items|
    ensures i % rows < |PageSlice(items, i / rows, rows)|
    ensures PageSlice(items, i / rows, rows)[i % rows] == items[i]
  {
    var p := i / rows;
    assert p * rows + i % rows == i;
  }

  /** The page state of a `TablePagination`: the current page and the page size. */
  class Pager {
    var page: nat
    var rowsPerPage: nat

    constructor (rows: nat)
      ensures page == 0 && rowsPerPage == rows
    {
      page := 0;
      rowsPerPage := rows;
    }

    /** The rows on the current page. */
    function Visible<T>(items: seq<T>): (r: seq<T>)
      reads this
      ensures |r| <= rowsPerPage
      ensures forall k :: 0 <= k < |r| ==> page * rowsPerPage + k < |items| && r[k] == items[page * rowsPerPage + k]
    {
      PageSlice(items, page, rowsPerPage)
    }

    /** `handleChangePage`: moves to the requested page. */
    method ChangePage(newPage: nat)
      modifies this
      ensures page == newPage && rowsPerPage == old(rowsPerPage)
    {
      page := newPage;
    }

    /** `handleChangeRowsPerPage`: sets the new page size and goes back to the first page. */
    method ChangeRowsPerPage(rows: nat)
      modifies this
      ensures rowsPerPage == rows && page == 0
    {
      rowsPerPage := rows;
      page := 0;
    }
  }
}
