/**
 * The full history screen: every fuel record, newest first, shown a page at a time
 * with a zero-based page index and a selectable number of rows per page.
 */
module FullHistory {
  import opened JsRuntime
  import opened FuelTypes
  import opened Paging

  const DefaultRowsPerPage: int := 10

  datatype HistoryState = HistoryState(records: seq<FuelRecord>, page: int, rowsPerPage: int)

  /** `paginatedRecords`: `records.slice(page * rowsPerPage, page * rowsPerPage + rowsPerPage)`. */
  function Shown(st: HistoryState): seq<FuelRecord> {
    PageOf(st.records, st.page, st.rowsPerPage)
  }

  /** `handleChangePage`: only the page index changes. */
  function ChangePage(st: HistoryState, newPage: int): (next: HistoryState)
    ensures next.page == newPage
    ensures next.records == st.records && next.rowsPerPage == st.rowsPerPage
  {
    st.(page := newPage)
  }

  /** `handleChangeRowsPerPage`: the new page size takes effect and the page goes back to 0. */
  function ChangeRowsPerPage(st: HistoryState, rows: int): (next: HistoryState)
    ensures next.rowsPerPage == rows && next.page == 0
    ensures next.records == st.records
  {
    st.(rowsPerPage := rows, page := 0)
  }

  /** A shown page holds at most rowsPerPage records, those from position page * rowsPerPage on. */
  lemma {:induction false} ShownIsWindow(st: HistoryState)
    requires st.page >= 0 && st.rowsPerPage > 0
    ensures |Shown(st)| <= st.rowsPerPage
    ensures Shown(st) == st.records[Min(st.page * st.rowsPerPage, |st.records|)..
                                    Min(st.page * st.rowsPerPage + st.rowsPerPage, |st.records|)]
  {
    PageShape(st.records, st.page, st.rowsPerPage);
  }

  /** After choosing a page size, the screen shows the newest records from the first one on. */
  lemma {:induction false} ResizeShowsNewest(st: HistoryState, rows: int)
    requires rows > 0
    ensures Shown(ChangeRowsPerPage(st, rows)) == st.records[..Min(rows, |st.records|)]
  {
    PageShape(st.records, 0, rows);
  }

  /** For a fixed page size, pages 0 .. ceil(n / rowsPerPage) - 1 laid end to end are all the records. */
  lemma {:induction false} HistoryPagesCover(st: HistoryState)
    requires st.rowsPerPage > 0
    ensures FirstPages(st.records, st.rowsPerPage, CeilDiv(|st.records|, st.rowsPerPage)) == st.records
    ensures forall k: nat :: k < CeilDiv(|st.records|, st.rowsPerPage) ==>
              Shown(ChangePage(st, k)) == PageOf(st.records, k, st.rowsPerPage) != []
  {
    PagesCover(st.records, st.rowsPerPage);
    forall k: nat | k < CeilDiv(|st.records|, st.rowsPerPage)
      ensures PageOf(st.records, k, st.rowsPerPage) != []
    {
      PageEmptyIffPastEnd(st.records, k, st.rowsPerPage);
    }
  }

  class FullHistoryPage {
    var records: seq<FuelRecord>
    var page: int
    var rowsPerPage: int

    function State(): HistoryState
      reads this
    {
      HistoryState(records, page, rowsPerPage)
    }

    constructor ()
      ensures State() == HistoryState([], 0, DefaultRowsPerPage)
    {
      records, page, rowsPerPage := [], 0, DefaultRowsPerPage;
    }

    /**
     * `loadRecords`: the fetched array is sorted newest first in place and becomes the
     * list; a failed fetch leaves everything as it was.
     */
    method LoadRecords(data: array<FuelRecord>, fetched: bool)
      modifies this, data
      ensures fetched ==> records == data[..] && NewestFirst(records)
      ensures fetched ==> multiset(records) == multiset(old(data[..]))
      ensures !fetched ==> records == old(records) && data[..] == old(data[..])
      ensures page == old(page) && rowsPerPage == old(rowsPerPage)
    {
      if fetched {
        SortRecords(data, DateColumn, Desc);
        SortedByDateMeaning(data[..]);
        records := data[..];
      }
    }

    method HandleChangePage(newPage: int)
      modifies this
      ensures State() == ChangePage(old(State()), newPage)
    {
      page := newPage;
    }

    /** The rows-per-page selector: its value, already parsed as a base-10 integer. */
    method HandleChangeRowsPerPage(rows: int)
      modifies this
      ensures State() == ChangeRowsPerPage(old(State()), rows)
    {
      rowsPerPage := rows;
      page := 0;
    }
  }
}
